/** backend/Run_Session.py: the current JobRunner and RunControlSession.

    Threads and the event loop are replaced by sequential steps that a caller interleaves:
    Start (the coroutine up to its return), WorkerBegin and WorkerFinish (the training thread,
    before and after its first milestone), BeginStream and Drain (stream_progress), LogStream
    (iterations of the log-tail thread), and the session's Dispatch and PumpStream. The uuid a
    start mints is a token the caller supplies, never issued before. */
module RunSession {
  import opened Common
  import opened JobModel
  import opened Helper
  import opened Control
  import opened Worker
  import opened RunnerRules

  const AlreadyActive := "An AutoGluon run is already active"

  // ---------------------------------------------------------------------------------------
  // The runner

  /** How a call to Drain ended: at the sentinel, blocked on an empty queue, or cancelled
      while blocked. */
  datatype DrainEnd = ReachedEof | Waiting | Cancelled

  class JobRunner {
    var active: bool
    var runId: Option<string>
    var state: RunState
    var resultPath: Option<string>
    var lastError: Option<string>
    var hasQueue: bool               // _q is not None
    var queue: seq<Event>            // the items in _q, oldest first
    var handlerInstalled: bool       // the logging bridge is attached to the root logger
    var stopRequested: bool          // _stop_evt is set
    var runLogPath: Option<string>
    var tailSeen: string             // current_log_file of the tail thread
    var worker: WorkerPhase
    ghost var issued: set<string>    // every run id minted so far

    /** The invariant of RunnerRules over the runner's fields. */
    ghost predicate Valid()
      reads this
    {
      PhaseOk(active, handlerInstalled, worker, state) && OutcomeOk(state, resultPath, lastError) &&
      QueueOk(state, active, worker, runId, issued, hasQueue, queue, runLogPath)
    }

    constructor()
      ensures Valid()
      ensures !active && runId.None? && state == Idle && resultPath.None? && lastError.None?
      ensures !hasQueue && queue == [] && runLogPath.None? && issued == {}
    {
      active := false;
      runId := None;
      state := Idle;
      resultPath := None;
      lastError := None;
      hasQueue := false;
      queue := [];
      handlerInstalled := false;
      stopRequested := false;
      runLogPath := None;
      tailSeen := "";
      worker := NoWorker;
      issued := {};
    }

    /** start: refused while a run is active; otherwise launched. */
    method Start(cfg: Value, token: string) returns (r: Result<string, PyError>)
      requires Valid() && token !in issued
      modifies this
      ensures Valid()
      ensures old(active) ==> r == Err(Raised("RuntimeError", AlreadyActive)) && unchanged(this)
      ensures !old(active) ==>
                r == Ok(token) && active && state == Starting && resultPath.None? && lastError.None? &&
                runId == Some(token) && hasQueue && queue == [StateChanged(token, "running")] &&
                handlerInstalled && !stopRequested && worker == Spawned(Job(cfg, token)) &&
                runLogPath == old(runLogPath) && tailSeen == old(tailSeen) && issued == old(issued) + {token}
      ensures r.Ok? && old(runId).Some? ==> r.value != old(runId).value
    {
      if active {
        r := Err(Raised("RuntimeError", AlreadyActive));
      } else {
        r := Launch(cfg, token);
      }
    }

    /** The rest of start: the runner is marked active before the worker is spawned, the
        previous outcome is cleared, a fresh queue is created, and the "running" state event is
        its first item. The log path of the previous run is kept. */
    method Launch(cfg: Value, token: string) returns (r: Result<string, PyError>)
      requires Valid() && !active && token !in issued
      modifies this
      ensures Valid()
      ensures r == Ok(token) && active && state == Starting && resultPath.None? && lastError.None? &&
              runId == Some(token) && hasQueue && queue == [StateChanged(token, "running")] &&
              handlerInstalled && !stopRequested && worker == Spawned(Job(cfg, token)) &&
              runLogPath == old(runLogPath) && tailSeen == old(tailSeen) && issued == old(issued) + {token}
    {
      var first := StateChanged(token, "running");
      Launched(state, runId, issued, hasQueue, queue, runLogPath, cfg, token);
      active, state := true, Starting;
      stopRequested, resultPath, lastError := false, None, None;
      runId, hasQueue, handlerInstalled := Some(token), true, true;
      issued, worker, queue := issued + {token}, Spawned(Job(cfg, token)), [first];
      r := Ok(token);
    }

    /** The worker's first steps: state "running", then the imported_autogluon milestone. */
    method WorkerBegin()
      requires Valid() && worker.Spawned?
      modifies this
      ensures Valid()
      ensures state == Running && worker == Training(old(worker).job)
      ensures queue == old(queue) + [Milestone(old(worker).job.runId, "imported_autogluon")]
      ensures active == old(active) && runId == old(runId) && resultPath == old(resultPath)
      ensures lastError == old(lastError) && hasQueue == old(hasQueue) && handlerInstalled == old(handlerInstalled)
      ensures stopRequested == old(stopRequested) && runLogPath == old(runLogPath) && tailSeen == old(tailSeen)
      ensures issued == old(issued)
    {
      var job := worker.job;
      Began(active, worker, runId, issued, hasQueue, queue, runLogPath);
      state := Running;
      queue := queue + [Milestone(job.runId, "imported_autogluon")];
      worker := Training(job);
    }

    /** The rest of the worker: its try block as Work, then its terminal transition and
        finally block. */
    method WorkerFinish(env: WorkerEnv)
      requires Valid() && worker.Training?
      modifies this
      ensures Valid()
      ensures var job := old(worker).job;
              var w := Work(job, env);
              queue == old(queue) + (w.pushed + [Terminal(job.runId, w.outcome), Eof(job.runId)]) &&
              (w.outcome.Ok? ==> state == Finished && resultPath == Some(w.outcome.value) && lastError.None?) &&
              (w.outcome.Err? ==> state == Errored && lastError == Some(w.outcome.error) && resultPath.None?) &&
              runLogPath == (if w.logPath.Some? then w.logPath else old(runLogPath))
      ensures !active && !handlerInstalled && worker == NoWorker
      ensures runId == old(runId) && hasQueue == old(hasQueue) && stopRequested == old(stopRequested)
      ensures tailSeen == old(tailSeen) && issued == old(issued)
    {
      var w := Work(worker.job, env);
      Conclude(w);
    }

    /** Exactly one terminal transition for a try block that ended as w (finished with the
        result path, or error with str(e)), then the finally block, which clears active,
        removes the logging bridge and pushes the sentinel last. */
    method Conclude(w: WorkerRun)
      requires Valid() && worker.Training? && OnlyProgress(worker.job.runId, w.pushed)
      modifies this
      ensures Valid()
      ensures var id := old(worker).job.runId;
              queue == old(queue) + (w.pushed + [Terminal(id, w.outcome), Eof(id)])
      ensures w.outcome.Ok? ==> state == Finished && resultPath == Some(w.outcome.value) && lastError.None?
      ensures w.outcome.Err? ==> state == Errored && lastError == Some(w.outcome.error) && resultPath.None?
      ensures runLogPath == (if w.logPath.Some? then w.logPath else old(runLogPath))
      ensures !active && !handlerInstalled && worker == NoWorker
      ensures runId == old(runId) && hasQueue == old(hasQueue) && stopRequested == old(stopRequested)
      ensures tailSeen == old(tailSeen) && issued == old(issued)
    {
      var id := worker.job.runId;
      Concluded(state, worker, runId, resultPath, lastError, issued, hasQueue, queue, runLogPath, w.pushed, w.outcome, w.logPath);
      if w.outcome.Ok? {
        state, resultPath := Finished, Some(w.outcome.value);
      } else {
        state, lastError := Errored, Some(w.outcome.error);
      }
      active, handlerInstalled, worker := false, false, NoWorker;
      runLogPath := if w.logPath.Some? then w.logPath else runLogPath;
      queue := queue + (w.pushed + [Terminal(id, w.outcome), Eof(id)]);
    }

    /** status(run_id): the id asked about, next to the runner's current fields, whatever run
        that id names. */
    method Status(rid: Value) returns (snap: Json)
      ensures snap == Snapshot(rid, state, resultPath, lastError, active)
    {
      snap := Snapshot(rid, state, resultPath, lastError, active);
    }

    method Pause(rid: string) returns (e: PyError)
      ensures e == Unsupported(JobModel.Pause)
    {
      e := NotImplemented("pause not supported");
    }

    method Resume(rid: string) returns (e: PyError)
      ensures e == Unsupported(JobModel.Resume)
    {
      e := NotImplemented("resume not supported");
    }

    method Cancel(rid: string) returns (e: PyError)
      ensures e == Unsupported(JobModel.Cancel)
    {
      e := NotImplemented("cancel not supported in-thread");
    }

    method Restart(rid: string) returns (e: PyError)
      ensures e == Unsupported(JobModel.Restart)
    {
      e := NotImplemented("restart not supported");
    }

    /** stream_progress up to its first get: clears the stop flag and starts a tail thread
        (with nothing seen yet); answers whether there is a queue to drain. Without one the
        stream ends here and the tail thread keeps running. */
    method BeginStream() returns (hasQ: bool)
      requires Valid()
      modifies this
      ensures Valid()
      ensures hasQ == hasQueue && !stopRequested && tailSeen == ""
      ensures active == old(active) && runId == old(runId) && state == old(state) && resultPath == old(resultPath)
      ensures lastError == old(lastError) && hasQueue == old(hasQueue) && queue == old(queue)
      ensures handlerInstalled == old(handlerInstalled) && runLogPath == old(runLogPath)
      ensures worker == old(worker) && issued == old(issued)
    {
      stopRequested := false;
      tailSeen := "";
      hasQ := hasQueue;
    }

    /** stream_progress's loop over what the queue holds now: items are forwarded in FIFO
        order up to the first sentinel, which is consumed but never forwarded and sets the
        stop flag. With no sentinel the loop blocks on the empty queue; being cancelled there
        also sets the stop flag. */
    method Drain(cancelWhenEmpty: bool) returns (forwarded: seq<Event>, end: DrainEnd)
      requires Valid() && hasQueue
      modifies this
      ensures Valid()
      ensures forwarded == BeforeEof(old(queue)) && NoEof(forwarded)
      ensures HasEof(old(queue)) ==> end == ReachedEof && queue == AfterEof(old(queue)) && stopRequested
      ensures !HasEof(old(queue)) ==> queue == [] && end == (if cancelWhenEmpty then Cancelled else Waiting)
      ensures end == Waiting ==> stopRequested == old(stopRequested)
      ensures end == Cancelled ==> stopRequested
      ensures active == old(active) && runId == old(runId) && state == old(state) && resultPath == old(resultPath)
      ensures lastError == old(lastError) && hasQueue == old(hasQueue) && handlerInstalled == old(handlerInstalled)
      ensures runLogPath == old(runLogPath) && tailSeen == old(tailSeen) && worker == old(worker)
      ensures issued == old(issued)
    {
      var q: seq<Event>;
      var sawEof: bool;
      forwarded, q, sawEof := TakeUntilEof(queue);
      if sawEof {
        stopRequested := true;
        end := ReachedEof;
      } else if cancelWhenEmpty {
        stopRequested := true;
        end := Cancelled;
      } else {
        end := Waiting;
      }
      Drained(state, active, worker, runId, issued, hasQueue, queue, runLogPath, |queue| - |q|);
      queue := q;
    }

    /** Iterations of the tail thread while the stop flag is clear: each read of the log file
        (None when it failed) that is longer than what was seen pushes the new part as a log
        item of the current run. */
    method LogStream(snaps: seq<Option<string>>)
      requires Valid()
      modifies this
      ensures Valid()
      ensures active == old(active) && runId == old(runId) && state == old(state) && resultPath == old(resultPath)
      ensures lastError == old(lastError) && hasQueue == old(hasQueue) && handlerInstalled == old(handlerInstalled)
      ensures stopRequested == old(stopRequested) && runLogPath == old(runLogPath) && worker == old(worker)
      ensures issued == old(issued)
      ensures (old(stopRequested) || old(runLogPath).None?) ==> unchanged(this)
      ensures !old(stopRequested) && old(runLogPath).Some? ==>
                queue == old(queue) + TailEvents(runId.value, TailDiffs(old(tailSeen), snaps)) &&
                tailSeen == TailSeen(old(tailSeen), snaps)
    {
      if stopRequested || runLogPath.None? {
        return;
      }
      var id := runId.value;
      var seen := tailSeen;
      var pushed: seq<Event> := [];
      var i := 0;
      while i < |snaps|
        invariant 0 <= i <= |snaps|
        invariant pushed == TailEvents(id, TailDiffs(tailSeen, snaps[..i]))
        invariant seen == TailSeen(tailSeen, snaps[..i])
      {
        assert snaps[..i + 1][..i] == snaps[..i];
        match snaps[i] {
          case Some(contents) =>
            if |contents| > |seen| {
              pushed := pushed + [LogTail(id, contents[|seen|..])];
              seen := contents;
            }
          case None =>
        }
        i := i + 1;
      }
      assert snaps[..|snaps|] == snaps;
      Tailed(state, active, worker, runId, issued, hasQueue, queue, runLogPath, pushed);
      queue := queue + pushed;
      tailSeen := seen;
    }
  }

  /** The loop of stream_progress over the items present: take items off the front, forwarding
      each, until the first sentinel, which is taken off but not forwarded. */
  method TakeUntilEof(queue: seq<Event>) returns (forwarded: seq<Event>, rest: seq<Event>, sawEof: bool)
    ensures forwarded == BeforeEof(queue) && NoEof(forwarded)
    ensures sawEof == HasEof(queue)
    ensures rest == AfterEof(queue)
    ensures |rest| <= |queue| && rest == queue[|queue| - |rest|..]
  {
    var q := queue;
    forwarded := [];
    while q != [] && !q[0].Eof?
      invariant forwarded + BeforeEof(q) == BeforeEof(queue)
      invariant AfterEof(q) == AfterEof(queue) && HasEof(q) == HasEof(queue)
      invariant |q| <= |queue| && q == queue[|queue| - |q|..]
      decreases |q|
    {
      DrainStep(q);
      forwarded := forwarded + [q[0]];
      q := q[1..];
    }
    DrainSplit(queue);
    sawEof := q != [];
    if sawEof {
      DrainSplit(q);
      assert FirstEof(q) == 0;
      q := q[1..];
    }
    rest := q;
  }

  // ---------------------------------------------------------------------------------------
  // The client envelope

  /** emit: a deep copy of the payload without its "type", behind "type": "event" and the
      payload's type as "subtype". A payload without "type" raises KeyError. */
  function Envelope(p: Json): (r: Result<Json, PyError>)
    ensures r.Err? <==> "type" !in p
    ensures r.Err? ==> r.error == KeyError("type")
    ensures r.Ok? ==> "type" in r.value && r.value["type"] == Str("event")
    ensures r.Ok? && "subtype" !in p ==> "subtype" in r.value && r.value["subtype"] == p["type"]
    ensures r.Ok? ==> forall k | k in p && k != "type" :: k in r.value && r.value[k] == p[k]
    ensures r.Ok? ==> r.value.Keys == p.Keys + {"subtype"}
  {
    if "type" !in p then Err(KeyError("type"))
    else Ok(map["type" := Str("event"), "subtype" := p["type"]] + (p - {"type"}))
  }

  /** What a client gets back from an envelope: the fields without "subtype", with the
      payload's type restored. */
  function Unwrap(env: Json): Json
    requires "subtype" in env
  {
    (env - {"subtype"})["type" := env["subtype"]]
  }

  /** Nothing is lost in the envelope: unwrapping it gives back the payload. */
  lemma EnvelopeRoundTrip(p: Json)
    requires "type" in p && "subtype" !in p
    ensures Envelope(p).Ok? && Unwrap(Envelope(p).value) == p
  {
    var e := Envelope(p).value;
    assert Unwrap(e).Keys == p.Keys;
  }

  function EventEnvelope(e: Event): Json {
    Envelope(Payload(e)).value
  }

  /** Every event reaches the client as type "event" with its own type as subtype, and reads
      back as the same event. */
  lemma EventEnvelopeFaithful(e: Event)
    ensures EventEnvelope(e)["type"] == Str("event")
    ensures EventEnvelope(e)["subtype"] == Str(TypeTag(e))
    ensures EventEnvelope(e)["run_id"] == Str(e.runId)
    ensures EventOf(Unwrap(EventEnvelope(e))) == Some(e)
  {
    EnvelopeRoundTrip(Payload(e));
    PayloadRoundTrip(e);
  }

  function EventEnvelopes(es: seq<Event>): (r: seq<Json>)
    ensures |r| == |es|
    ensures forall i | 0 <= i < |es| :: r[i] == EventEnvelope(es[i])
  {
    seq(|es|, i requires 0 <= i < |es| => EventEnvelope(es[i]))
  }

  // ---------------------------------------------------------------------------------------
  // The session

  /** A progress task: created by a start and not yet run, or draining the queue. */
  datatype TaskPhase = Created | Draining

  class RunControlSession {
    const runner: JobRunner
    var connected: bool                   // _ws is set (on_connect ran)
    var currRunId: Option<string>
    var tasks: map<string, TaskPhase>     // live progress tasks, by the run they were created for
    var sent: seq<Json>                   // what the progress tasks sent, in order

    ghost predicate Valid()
      reads this, runner
    {
      runner.Valid() && (currRunId.Some? ==> currRunId.value in runner.issued) &&
      (Draining in tasks.Values ==> runner.hasQueue)
    }

    constructor(r: JobRunner)
      requires r.Valid()
      ensures Valid() && runner == r
      ensures !connected && currRunId.None? && tasks == map[] && sent == []
    {
      runner := r;
      connected := false;
      currRunId := None;
      tasks := map[];
      sent := [];
    }

    method OnConnect()
      modifies this
      ensures connected && currRunId == old(currRunId) && tasks == old(tasks) && sent == old(sent)
    {
      connected := true;
    }

    /** dispatch. A start that passes the gate starts the run and makes it the connection's
        run even when the later `assert self._ws is not None` fails; only then is a progress
        task created. Every other route leaves the session and the runner as they were. */
    method Dispatch(msg: Json, token: string) returns (r: Result<Json, PyError>)
      requires Valid() && token !in runner.issued
      modifies this, runner
      ensures Valid()
      ensures connected == old(connected)
      ensures var route := RouteMessage(msg, old(currRunId));
              route.RouteStart? && StartGate(old(runner.active), route.cfg) == Go ==>
                runner.active && runner.runId == Some(token) && runner.worker == Spawned(Job(route.cfg, token)) &&
                runner.queue == [StateChanged(token, "running")] && currRunId == Some(token) && sent == old(sent) &&
                (old(connected) ==> r == Ok(StartedReply(token)) && tasks == old(tasks)[token := Created]) &&
                (!old(connected) ==> r == Err(Raised("AssertionError", "")) && tasks == old(tasks))
      ensures var route := RouteMessage(msg, old(currRunId));
              !(route.RouteStart? && StartGate(old(runner.active), route.cfg) == Go) ==>
                unchanged(this) && unchanged(runner)
      ensures var route := RouteMessage(msg, old(currRunId));
              route.RouteStart? && StartGate(old(runner.active), route.cfg).Refuse? ==>
                r == Ok(ErrorReply(StartGate(old(runner.active), route.cfg).reason))
      ensures var route := RouteMessage(msg, old(currRunId));
              route.RouteStart? && StartGate(old(runner.active), route.cfg).GateFault? ==>
                r == Err(StartGate(old(runner.active), route.cfg).err)
      ensures var route := RouteMessage(msg, old(currRunId));
              route.RouteStatus? ==>
                r == Ok(StatusReply(Snapshot(route.runId, runner.state, runner.resultPath, runner.lastError, runner.active)))
      ensures var route := RouteMessage(msg, old(currRunId));
              route.RouteCancel? ==> r == Ok(OpReply(JobModel.Cancel))
      ensures var route := RouteMessage(msg, old(currRunId));
              route.Reply? ==> r == Ok(route.reply)
      ensures var route := RouteMessage(msg, old(currRunId));
              route.Fault? ==> r == Err(route.err)
    {
      match RouteMessage(msg, currRunId) {
        case RouteStart(cfg) =>
          match StartGate(runner.active, cfg) {
            case Refuse(reason) =>
              r := Ok(ErrorReply(reason));
            case GateFault(e) =>
              r := Err(e);
            case Go =>
              var started := runner.Start(cfg, token);
              currRunId := Some(token);
              if !connected {
                r := Err(Raised("AssertionError", ""));
              } else {
                tasks := tasks[token := Created];
                r := Ok(StartedReply(token));
              }
          }
        case RouteStatus(rid) =>
          var snap := runner.Status(rid);
          r := Ok(StatusReply(snap));
        case RouteCancel(rid) =>
          var e := runner.Cancel(Show(rid));
          r := Ok(ErrorReply(ErrorText(e)));
        case Reply(reply) =>
          r := Ok(reply);
        case Fault(e) =>
          r := Err(e);
      }
    }

    /** The session's pause, resume and restart: each asks the runner, which refuses, and
        reports the refusal. */
    method Pause(rid: string) returns (reply: Json)
      ensures reply == OpReply(JobModel.Pause)
    {
      var e := runner.Pause(rid);
      reply := ErrorReply(ErrorText(e));
    }

    method Resume(rid: string) returns (reply: Json)
      ensures reply == OpReply(JobModel.Resume)
    {
      var e := runner.Resume(rid);
      reply := ErrorReply(ErrorText(e));
    }

    method Restart(rid: string) returns (reply: Json)
      ensures reply == OpReply(JobModel.Restart)
    {
      var e := runner.Restart(rid);
      reply := ErrorReply(ErrorText(e));
    }

    /** One turn of the progress task of run `rid` (_stream_and_cleanup): on its first turn it
        begins the stream; then it drains the queue, sending each item's envelope. When the
        stream ends normally the connection's run is cleared only if it is still `rid`; a
        cancelled task ends without that cleanup. */
    method PumpStream(rid: string, cancelWhenEmpty: bool) returns (ended: bool)
      requires Valid() && rid in tasks
      modifies this, runner
      ensures Valid()
      ensures connected == old(connected)
      ensures old(runner.hasQueue) ==>
                sent == old(sent) + EventEnvelopes(BeforeEof(old(runner.queue))) &&
                (ended <==> HasEof(old(runner.queue)) || cancelWhenEmpty)
      ensures !old(runner.hasQueue) ==> sent == old(sent) && ended
      ensures ended ==> tasks == old(tasks) - {rid}
      ensures !ended ==> tasks == old(tasks)[rid := Draining]
      ensures ended && (!old(runner.hasQueue) || HasEof(old(runner.queue))) ==>
                currRunId == (if old(currRunId) == Some(rid) then None else old(currRunId))
      ensures !(ended && (!old(runner.hasQueue) || HasEof(old(runner.queue)))) ==> currRunId == old(currRunId)
    {
      if tasks[rid] == Created {
        var hasQ := runner.BeginStream();
        if !hasQ {
          tasks := tasks - {rid};
          if currRunId == Some(rid) {
            currRunId := None;
          }
          return true;
        }
      }
      tasks := tasks[rid := Draining];
      var forwarded, end := runner.Drain(cancelWhenEmpty);
      sent := sent + EventEnvelopes(forwarded);
      match end {
        case ReachedEof =>
          tasks := tasks - {rid};
          if currRunId == Some(rid) {
            currRunId := None;
          }
          ended := true;
        case Cancelled =>
          tasks := tasks - {rid};
          ended := true;
        case Waiting =>
          ended := false;
      }
    }
  }
}
