/** backend/sessions.py: the older JobRunner and RunControlSession, which the tests import.

    The old worker imports AutoGluon inside its try block, always builds a TabularPredictor,
    reads train_data with train_df as its fallback, and keeps no log file; its stream ends at
    once when there is no queue. Its client envelope spreads the payload after
    "type": "event", so the payload's own type overwrites it. */
module Sessions {
  import opened Common
  import opened JobModel
  import opened Control
  import opened Worker
  import opened RunnerRules
  import RunSession

  /** What the outside world does during an old worker's run after its import. */
  datatype LegacyEnv = LegacyEnv(
    constructLogs: seq<LogRecord>,    // records logged while TabularPredictor(...) runs
    constructError: Option<PyError>,  // TabularPredictor(...) raising
    fitLogs: seq<LogRecord>,          // records logged while fit runs
    fit: FitOutcome)                  // how fit ends

  /** `cfg.get("train_data")`, or `cfg.get("train_df")` when that is None. */
  function LegacyTrainData(m: Json): Value {
    var d := Get(m, "train_data");
    if d == Null then Get(m, "train_df") else d
  }

  /** The old _train_entry from reading the label to the end of its try block. */
  function LegacyWork(job: Job, env: LegacyEnv): (w: WorkerRun)
    ensures OnlyProgress(job.runId, w.pushed)
    ensures w.logPath.None?
    ensures OneFitBegin(job.runId, w.pushed)
    ensures w.fitData.Some? ==> Milestone(job.runId, "fit_begin") in w.pushed
  {
    match Subscript(job.cfg, "label")
    case Err(e) => WorkerRun([], Err(ErrorText(e)), None, None)
    case Ok(_) =>
      var built := BridgeEvents(job.runId, env.constructLogs);
      if env.constructError.Some? then WorkerRun(built, Err(ErrorText(env.constructError.value)), None, None)
      else
        var logs := BridgeEvents(job.runId, env.fitLogs);
        var outcome := match env.fit case Trained(p) => Ok(p) case FitRaises(e) => Err(ErrorText(e));
        WorkerRun(AroundFitBegin(job.runId, built, logs), outcome, None,
                  Some(FromCfg(LegacyTrainData(job.cfg.fields))))
  }

  /** The old worker finishes exactly when the cfg has a label, the predictor could be built
      and fit returned; fit always sees train_data, or train_df when train_data is None. */
  lemma LegacyWorkOutcome(job: Job, env: LegacyEnv)
    ensures LegacyWork(job, env).outcome.Ok? <==>
              job.cfg.Obj? && "label" in job.cfg.fields && env.constructError.None? && env.fit.Trained?
    ensures LegacyWork(job, env).outcome.Ok? ==> LegacyWork(job, env).outcome.value == env.fit.path
    ensures LegacyWork(job, env).fitData.Some? ==>
              job.cfg.Obj? && LegacyWork(job, env).fitData.value == FromCfg(LegacyTrainData(job.cfg.fields))
    ensures !(job.cfg.Obj? && "label" in job.cfg.fields) ==>
              LegacyWork(job, env) == WorkerRun([], Err(ErrorText(Subscript(job.cfg, "label").error)), None, None)
    ensures job.cfg.Obj? && "label" in job.cfg.fields && env.constructError.Some? ==>
              LegacyWork(job, env) ==
                WorkerRun(BridgeEvents(job.runId, env.constructLogs), Err(ErrorText(env.constructError.value)), None, None)
  {
  }

  /** Where the two workers part: the old one trains on a non-None train_data and ignores
      train_df, while the current one ignores train_data. */
  lemma TrainDataKeyHonoured(m: Json, runId: string, env: LegacyEnv, v: Value)
    requires "label" in m && env.constructError.None? && v != Null
    ensures LegacyWork(Job(Obj(m["train_data" := v]), runId), env).fitData == Some(FromCfg(v))
  {
    assert Get(m["train_data" := v], "train_data") == v;
  }

  /** A well-formed run whose fit returns finishes with fit's path, after pushing the records
      at INFO or above logged while the predictor was built, fit_begin, and those logged
      during fit. */
  lemma LegacyHappyPath(runId: string, lbl: Value, trainDf: Value, built: seq<LogRecord>, recs: seq<LogRecord>,
                        resultPath: string)
    ensures var m := map["label" := lbl, "train_df" := trainDf];
            var w := LegacyWork(Job(Obj(m), runId), LegacyEnv(built, None, recs, Trained(resultPath)));
            w.outcome == Ok(resultPath) &&
            w.pushed == BridgeEvents(runId, built) + [Milestone(runId, "fit_begin")] + BridgeEvents(runId, recs) &&
            w.fitData == Some(FromCfg(trainDf))
  {
    var m := map["label" := lbl, "train_df" := trainDf];
    assert Get(m, "train_data") == Null;
  }

  /** How a call to the old stream_progress ended: there was no queue, it reached the
      sentinel, it blocked on an empty queue, or it was cancelled while blocked. */
  datatype StreamEnd = NoQueue | AtEof | Blocked | Cancelled

  class JobRunner {
    var active: bool
    var runId: Option<string>
    var state: RunState
    var resultPath: Option<string>
    var lastError: Option<string>
    var hasQueue: bool               // _q is not None
    var queue: seq<Event>            // the items in _q, oldest first
    var handlerInstalled: bool       // the logging bridge is attached to the root logger
    var worker: WorkerPhase
    ghost var issued: set<string>    // every run id minted so far

    /** The invariant of RunnerRules over the runner's fields; the old runner has no log file. */
    ghost predicate Valid()
      reads this
    {
      PhaseOk(active, handlerInstalled, worker, state) && OutcomeOk(state, resultPath, lastError) &&
      QueueOk(state, active, worker, runId, issued, hasQueue, queue, None)
    }

    constructor()
      ensures Valid()
      ensures !active && runId.None? && state == Idle && resultPath.None? && lastError.None?
      ensures !hasQueue && queue == [] && issued == {}
    {
      active := false;
      runId := None;
      state := Idle;
      resultPath := None;
      lastError := None;
      hasQueue := false;
      queue := [];
      handlerInstalled := false;
      worker := NoWorker;
      issued := {};
    }

    /** start: refused while a run is active; otherwise launched. */
    method Start(cfg: Value, token: string) returns (r: Result<string, PyError>)
      requires Valid() && token !in issued
      modifies this
      ensures Valid()
      ensures old(active) ==> r == Err(Raised("RuntimeError", RunSession.AlreadyActive)) && unchanged(this)
      ensures !old(active) ==>
                r == Ok(token) && active && state == Starting && resultPath.None? && lastError.None? &&
                runId == Some(token) && hasQueue && queue == [StateChanged(token, "running")] &&
                handlerInstalled && worker == Spawned(Job(cfg, token)) && issued == old(issued) + {token}
      ensures r.Ok? && old(runId).Some? ==> r.value != old(runId).value
    {
      if active {
        r := Err(Raised("RuntimeError", RunSession.AlreadyActive));
      } else {
        r := Launch(cfg, token);
      }
    }

    /** The rest of start: active before the worker is spawned, the previous outcome cleared,
        a fresh queue whose first item is the "running" state event. */
    method Launch(cfg: Value, token: string) returns (r: Result<string, PyError>)
      requires Valid() && !active && token !in issued
      modifies this
      ensures Valid()
      ensures r == Ok(token) && active && state == Starting && resultPath.None? && lastError.None? &&
              runId == Some(token) && hasQueue && queue == [StateChanged(token, "running")] &&
              handlerInstalled && worker == Spawned(Job(cfg, token)) && issued == old(issued) + {token}
    {
      Launched(state, runId, issued, hasQueue, queue, None, cfg, token);
      active, state := true, Starting;
      resultPath, lastError := None, None;
      runId, hasQueue, handlerInstalled := Some(token), true, true;
      issued, worker, queue := issued + {token}, Spawned(Job(cfg, token)), [StateChanged(token, "running")];
      r := Ok(token);
    }

    /** The worker's import of AutoGluon, inside its try block: when it succeeds the state
        becomes "running" and the imported_autogluon milestone is pushed; when it raises, the
        run ends in error without any milestone. */
    method WorkerImport(importError: Option<PyError>)
      requires Valid() && worker.Spawned?
      modifies this
      ensures Valid()
      ensures var id := old(worker).job.runId;
              importError.None? ==>
                state == Running && worker == Training(old(worker).job) && active && handlerInstalled &&
                queue == old(queue) + [Milestone(id, "imported_autogluon")] && lastError == old(lastError)
      ensures var id := old(worker).job.runId;
              importError.Some? ==>
                state == Errored && lastError == Some(ErrorText(importError.value)) && !active &&
                !handlerInstalled && worker == NoWorker &&
                queue == old(queue) + [RunFailed(id, ErrorText(importError.value)), Eof(id)]
      ensures runId == old(runId) && resultPath == old(resultPath) && hasQueue == old(hasQueue) && issued == old(issued)
    {
      if importError.None? {
        Imported();
      } else {
        Conclude(WorkerRun([], Err(ErrorText(importError.value)), None, None));
      }
    }

    method Imported()
      requires Valid() && worker.Spawned?
      modifies this
      ensures Valid()
      ensures state == Running && worker == Training(old(worker).job)
      ensures queue == old(queue) + [Milestone(old(worker).job.runId, "imported_autogluon")]
      ensures active == old(active) && runId == old(runId) && resultPath == old(resultPath)
      ensures lastError == old(lastError) && hasQueue == old(hasQueue) && handlerInstalled == old(handlerInstalled)
      ensures issued == old(issued)
    {
      var job := worker.job;
      Began(active, worker, runId, issued, hasQueue, queue, None);
      state := Running;
      queue := queue + [Milestone(job.runId, "imported_autogluon")];
      worker := Training(job);
    }

    /** The rest of the old worker: its try block as LegacyWork, then its terminal transition
        and finally block. */
    method WorkerFinish(env: LegacyEnv)
      requires Valid() && worker.Training?
      modifies this
      ensures Valid()
      ensures var job := old(worker).job;
              var w := LegacyWork(job, env);
              queue == old(queue) + (w.pushed + [Terminal(job.runId, w.outcome), Eof(job.runId)]) &&
              (w.outcome.Ok? ==> state == Finished && resultPath == Some(w.outcome.value) && lastError.None?) &&
              (w.outcome.Err? ==> state == Errored && lastError == Some(w.outcome.error) && resultPath.None?)
      ensures !active && !handlerInstalled && worker == NoWorker
      ensures runId == old(runId) && hasQueue == old(hasQueue) && issued == old(issued)
    {
      var w := LegacyWork(worker.job, env);
      Conclude(w);
    }

    /** Exactly one terminal transition for a try block that ended as w, then the finally
        block: active cleared, the bridge removed, the sentinel pushed last. */
    method Conclude(w: WorkerRun)
      requires Valid() && !worker.NoWorker? && OnlyProgress(worker.job.runId, w.pushed) && w.logPath.None?
      modifies this
      ensures Valid()
      ensures var id := old(worker).job.runId;
              queue == old(queue) + (w.pushed + [Terminal(id, w.outcome), Eof(id)])
      ensures w.outcome.Ok? ==> state == Finished && resultPath == Some(w.outcome.value) && lastError == old(lastError)
      ensures w.outcome.Err? ==> state == Errored && lastError == Some(w.outcome.error) && resultPath == old(resultPath)
      ensures !active && !handlerInstalled && worker == NoWorker
      ensures runId == old(runId) && hasQueue == old(hasQueue) && issued == old(issued)
    {
      var id := worker.job.runId;
      Concluded(state, worker, runId, resultPath, lastError, issued, hasQueue, queue, None, w.pushed, w.outcome, w.logPath);
      if w.outcome.Ok? {
        state, resultPath := Finished, Some(w.outcome.value);
      } else {
        state, lastError := Errored, Some(w.outcome.error);
      }
      active, handlerInstalled, worker := false, false, NoWorker;
      queue := queue + (w.pushed + [Terminal(id, w.outcome), Eof(id)]);
    }

    /** status(run_id): the id asked about, next to the runner's current fields. */
    method Status(rid: Value) returns (snap: Json)
      ensures snap == Snapshot(rid, state, resultPath, lastError, active)
    {
      snap := Snapshot(rid, state, resultPath, lastError, active);
    }

    method Pause(rid: string) returns (e: PyError)
      ensures e == Unsupported(JobModel.Pause)
    {
      e := NotImplemented("pause not supported");
    }

    method Resume(rid: string) returns (e: PyError)
      ensures e == Unsupported(JobModel.Resume)
    {
      e := NotImplemented("resume not supported");
    }

    method Cancel(rid: string) returns (e: PyError)
      ensures e == Unsupported(JobModel.Cancel)
    {
      e := NotImplemented("cancel not supported in-thread");
    }

    method Restart(rid: string) returns (e: PyError)
      ensures e == Unsupported(JobModel.Restart)
    {
      e := NotImplemented("restart not supported");
    }

    /** stream_progress over what the queue holds now: nothing without a queue; otherwise
        items are forwarded in FIFO order up to the first sentinel, which is consumed but never
        forwarded. With no sentinel the loop blocks on the empty queue, or is cancelled there. */
    method Drain(cancelWhenEmpty: bool) returns (forwarded: seq<Event>, end: StreamEnd)
      requires Valid()
      modifies this
      ensures Valid()
      ensures !old(hasQueue) ==> forwarded == [] && end == NoQueue && unchanged(this)
      ensures old(hasQueue) ==> forwarded == BeforeEof(old(queue)) && NoEof(forwarded)
      ensures old(hasQueue) && HasEof(old(queue)) ==> end == AtEof && queue == AfterEof(old(queue))
      ensures old(hasQueue) && !HasEof(old(queue)) ==>
                queue == [] && end == (if cancelWhenEmpty then Cancelled else Blocked)
      ensures active == old(active) && runId == old(runId) && state == old(state) && resultPath == old(resultPath)
      ensures lastError == old(lastError) && hasQueue == old(hasQueue) && handlerInstalled == old(handlerInstalled)
      ensures worker == old(worker) && issued == old(issued)
    {
      if !hasQueue {
        forwarded, end := [], NoQueue;
        return;
      }
      var q: seq<Event>;
      var sawEof: bool;
      forwarded, q, sawEof := RunSession.TakeUntilEof(queue);
      end := if sawEof then AtEof else if cancelWhenEmpty then Cancelled else Blocked;
      Drained(state, active, worker, runId, issued, hasQueue, queue, None, |queue| - |q|);
      queue := q;
    }
  }

  // ---------------------------------------------------------------------------------------
  // The client envelope, as written

  /** emit: `{"type": "event", "subtype": payload.get("type"), **payload}`. The payload comes
      last, so every one of its keys wins, "type" included. */
  function LegacyEnvelope(p: Json): (r: Json)
    ensures r.Keys == p.Keys + {"type", "subtype"}
    ensures forall k | k in p :: r[k] == p[k]
    ensures "subtype" !in p ==> r["subtype"] == Get(p, "type")
    ensures "type" !in p ==> r["type"] == Str("event")
  {
    map["type" := Str("event"), "subtype" := Get(p, "type")] + p
  }

  /** No event reaches the client with type "event": each keeps its own type, while the
      envelope the session promises, and that the run-control test expects, has type "event". */
  lemma LegacyEnvelopeKeepsPayloadType(e: Event)
    ensures LegacyEnvelope(Payload(e))["type"] == Str(TypeTag(e))
    ensures LegacyEnvelope(Payload(e))["type"] != Str("event")
    ensures RunSession.EventEnvelope(e)["type"] == Str("event")
  {
    RunSession.EventEnvelopeFaithful(e);
    assert TypeTag(e) != "event" by {
      match e
      case StateChanged(_, _) => assert TypeTag(e)[0] == 's';
      case Milestone(_, _) => assert TypeTag(e)[0] == 'm';
      case LogLine(_, _, _, _) => assert TypeTag(e)[0] == 'l';
      case LogTail(_, _) => assert TypeTag(e)[0] == 'l';
      case RunFinished(_, _) => assert TypeTag(e)[0] == 'f';
      case RunFailed(_, _) => assert TypeTag(e) == "error";
      case Eof(_) => assert TypeTag(e)[1] == 'o';
    }
  }

  function LegacyEnvelopes(es: seq<Event>): (r: seq<Json>)
    ensures |r| == |es|
    ensures forall i | 0 <= i < |es| :: r[i] == LegacyEnvelope(Payload(es[i]))
  {
    seq(|es|, i requires 0 <= i < |es| => LegacyEnvelope(Payload(es[i])))
  }

  // ---------------------------------------------------------------------------------------
  // The session

  class RunControlSession {
    const runner: JobRunner
    var connected: bool                   // _ws is set (on_connect ran)
    var currRunId: Option<string>
    var tasks: set<string>                // live progress tasks, by the run they were created for
    var sent: seq<Json>                   // what the progress tasks sent, in order

    ghost predicate Valid()
      reads this, runner
    {
      runner.Valid() && (currRunId.Some? ==> currRunId.value in runner.issued)
    }

    constructor(r: JobRunner)
      requires r.Valid()
      ensures Valid() && runner == r
      ensures !connected && currRunId.None? && tasks == {} && sent == []
    {
      runner := r;
      connected := false;
      currRunId := None;
      tasks := {};
      sent := [];
    }

    method OnConnect()
      modifies this
      ensures connected && currRunId == old(currRunId) && tasks == old(tasks) && sent == old(sent)
    {
      connected := true;
    }

    /** dispatch, as in the current session: a start that passes the gate starts the run and
        makes it the connection's run even when `assert self._ws is not None` then fails; only
        then is a progress task created. Every other route changes nothing. */
    method Dispatch(msg: Json, token: string) returns (r: Result<Json, PyError>)
      requires Valid() && token !in runner.issued
      modifies this, runner
      ensures Valid()
      ensures connected == old(connected)
      ensures var route := RouteMessage(msg, old(currRunId));
              route.RouteStart? && StartGate(old(runner.active), route.cfg) == Go ==>
                runner.active && runner.runId == Some(token) && runner.worker == Spawned(Job(route.cfg, token)) &&
                runner.queue == [StateChanged(token, "running")] && currRunId == Some(token) && sent == old(sent) &&
                (old(connected) ==> r == Ok(StartedReply(token)) && tasks == old(tasks) + {token}) &&
                (!old(connected) ==> r == Err(Raised("AssertionError", "")) && tasks == old(tasks))
      ensures var route := RouteMessage(msg, old(currRunId));
              !(route.RouteStart? && StartGate(old(runner.active), route.cfg) == Go) ==>
                unchanged(this) && unchanged(runner)
      ensures var route := RouteMessage(msg, old(currRunId));
              route.RouteStart? && StartGate(old(runner.active), route.cfg).Refuse? ==>
                r == Ok(ErrorReply(StartGate(old(runner.active), route.cfg).reason))
      ensures var route := RouteMessage(msg, old(currRunId));
              route.RouteStart? && StartGate(old(runner.active), route.cfg).GateFault? ==>
                r == Err(StartGate(old(runner.active), route.cfg).err)
      ensures var route := RouteMessage(msg, old(currRunId));
              route.RouteStatus? ==>
                r == Ok(StatusReply(Snapshot(route.runId, runner.state, runner.resultPath, runner.lastError, runner.active)))
      ensures var route := RouteMessage(msg, old(currRunId));
              route.RouteCancel? ==> r == Ok(OpReply(JobModel.Cancel))
      ensures var route := RouteMessage(msg, old(currRunId));
              route.Reply? ==> r == Ok(route.reply)
      ensures var route := RouteMessage(msg, old(currRunId));
              route.Fault? ==> r == Err(route.err)
    {
      match RouteMessage(msg, currRunId) {
        case RouteStart(cfg) =>
          match StartGate(runner.active, cfg) {
            case Refuse(reason) =>
              r := Ok(ErrorReply(reason));
            case GateFault(e) =>
              r := Err(e);
            case Go =>
              var started := runner.Start(cfg, token);
              currRunId := Some(token);
              if !connected {
                r := Err(Raised("AssertionError", ""));
              } else {
                tasks := tasks + {token};
                r := Ok(StartedReply(token));
              }
          }
        case RouteStatus(rid) =>
          var snap := runner.Status(rid);
          r := Ok(StatusReply(snap));
        case RouteCancel(rid) =>
          var e := runner.Cancel(Show(rid));
          r := Ok(ErrorReply(ErrorText(e)));
        case Reply(reply) =>
          r := Ok(reply);
        case Fault(e) =>
          r := Err(e);
      }
    }

    method Pause(rid: string) returns (reply: Json)
      ensures reply == OpReply(JobModel.Pause)
    {
      var e := runner.Pause(rid);
      reply := ErrorReply(ErrorText(e));
    }

    method Resume(rid: string) returns (reply: Json)
      ensures reply == OpReply(JobModel.Resume)
    {
      var e := runner.Resume(rid);
      reply := ErrorReply(ErrorText(e));
    }

    method Restart(rid: string) returns (reply: Json)
      ensures reply == OpReply(JobModel.Restart)
    {
      var e := runner.Restart(rid);
      reply := ErrorReply(ErrorText(e));
    }

    /** One turn of the progress task of run `rid`: it drains the queue, sending each item
        behind the old envelope. When the stream ends normally the connection's run is cleared
        only if it is still `rid`; a cancelled task ends without that cleanup. */
    method PumpStream(rid: string, cancelWhenEmpty: bool) returns (ended: bool)
      requires Valid() && rid in tasks
      modifies this, runner
      ensures Valid()
      ensures connected == old(connected)
      ensures old(runner.hasQueue) ==>
                sent == old(sent) + LegacyEnvelopes(BeforeEof(old(runner.queue))) &&
                (ended <==> HasEof(old(runner.queue)) || cancelWhenEmpty)
      ensures !old(runner.hasQueue) ==> sent == old(sent) && ended
      ensures ended ==> tasks == old(tasks) - {rid}
      ensures !ended ==> tasks == old(tasks)
      ensures ended && (!old(runner.hasQueue) || HasEof(old(runner.queue))) ==>
                currRunId == (if old(currRunId) == Some(rid) then None else old(currRunId))
      ensures !(ended && (!old(runner.hasQueue) || HasEof(old(runner.queue)))) ==> currRunId == old(currRunId)
    {
      var forwarded, end := runner.Drain(cancelWhenEmpty);
      sent := sent + LegacyEnvelopes(forwarded);
      match end {
        case NoQueue =>
          tasks := tasks - {rid};
          if currRunId == Some(rid) {
            currRunId := None;
          }
          ended := true;
        case AtEof =>
          tasks := tasks - {rid};
          if currRunId == Some(rid) {
            currRunId := None;
          }
          ended := true;
        case Cancelled =>
          tasks := tasks - {rid};
          ended := true;
        case Blocked =>
          ended := false;
      }
    }
  }
}
