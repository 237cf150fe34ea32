/** What JobRunner's fields satisfy between any two of its steps, stated over the fields'
    values, and the value-level facts each step needs to keep it. */
module RunnerRules {
  import opened Common
  import opened JobModel
  import opened Worker

  /** The training thread of the current run, if one is pending. */
  datatype WorkerPhase = NoWorker | Spawned(job: Job) | Training(job: Job)

  /** The worker, the logging bridge and `_active` agree, and the state follows the worker. */
  predicate PhaseOk(active: bool, handlerInstalled: bool, worker: WorkerPhase, state: RunState) {
    (active <==> !worker.NoWorker?) &&
    (handlerInstalled <==> active) &&
    (worker.Spawned? ==> state.Starting?) &&
    (worker.Training? ==> state.Running?) &&
    (!active ==> state.Idle? || state.Finished? || state.Errored?)
  }

  /** A run's result path and error are set by, and only by, its terminal transition. */
  predicate OutcomeOk(state: RunState, resultPath: Option<string>, lastError: Option<string>) {
    (state.Idle? || state.Starting? || state.Running? ==> resultPath.None? && lastError.None?) &&
    (state.Finished? ==> resultPath.Some? && lastError.None?) &&
    (state.Errored? ==> lastError.Some? && resultPath.None?)
  }

  /** The queue belongs to the current run, holds at most one sentinel, and none while the
      run is active; a run id is one that was minted. */
  predicate QueueOk(state: RunState, active: bool, worker: WorkerPhase, runId: Option<string>,
                    issued: set<string>, hasQueue: bool, queue: seq<Event>, runLogPath: Option<string>)
  {
    (state.Idle? ==> !hasQueue && queue == []) &&
    (hasQueue <==> runId.Some?) &&
    (runId.Some? ==> runId.value in issued) &&
    (!worker.NoWorker? ==> runId == Some(worker.job.runId)) &&
    (forall i | 0 <= i < |queue| :: Some(queue[i].runId) == runId) &&
    EofCount(queue) <= 1 &&
    (active ==> NoEof(queue)) &&
    (runLogPath.Some? ==> hasQueue)
  }

  /** start on an inactive runner: whatever run came before, the new run's fields satisfy the
      invariant with a fresh id and a queue holding only the "running" event. */
  lemma Launched(state: RunState, runId: Option<string>, issued: set<string>, hasQueue: bool,
                 queue: seq<Event>, runLogPath: Option<string>, cfg: Value, token: string)
    requires QueueOk(state, false, NoWorker, runId, issued, hasQueue, queue, runLogPath)
    ensures PhaseOk(true, true, Spawned(Job(cfg, token)), Starting)
    ensures OutcomeOk(Starting, None, None)
    ensures QueueOk(Starting, true, Spawned(Job(cfg, token)), Some(token), issued + {token}, true,
                    [StateChanged(token, "running")], runLogPath)
  {
    assert EofCount([StateChanged(token, "running")][1..]) == 0;
  }

  /** The worker's first milestone keeps the queue free of sentinels and within its run. */
  lemma Began(active: bool, worker: WorkerPhase, runId: Option<string>, issued: set<string>,
              hasQueue: bool, queue: seq<Event>, runLogPath: Option<string>)
    requires worker.Spawned? && QueueOk(Starting, active, worker, runId, issued, hasQueue, queue, runLogPath)
    ensures QueueOk(Running, active, Training(worker.job), runId, issued, hasQueue,
                    queue + [Milestone(worker.job.runId, "imported_autogluon")], runLogPath)
  {
    EofCountAppend(queue, [Milestone(worker.job.runId, "imported_autogluon")]);
  }

  /** The worker's terminal transition and finally block, from a spawned or training worker:
      the run ends finished or errored with exactly one sentinel, last, on its queue. */
  lemma Concluded(state: RunState, worker: WorkerPhase, runId: Option<string>, resultPath: Option<string>,
                  lastError: Option<string>, issued: set<string>, hasQueue: bool, queue: seq<Event>,
                  runLogPath: Option<string>, pushed: seq<Event>, outcome: Result<string, string>,
                  logPath: Option<string>)
    requires PhaseOk(true, true, worker, state) && OutcomeOk(state, resultPath, lastError)
    requires QueueOk(state, true, worker, runId, issued, hasQueue, queue, runLogPath)
    requires OnlyProgress(worker.job.runId, pushed)
    ensures var state' := if outcome.Ok? then Finished else Errored;
            PhaseOk(false, false, NoWorker, state') &&
            OutcomeOk(state', if outcome.Ok? then Some(outcome.value) else resultPath,
                      if outcome.Err? then Some(outcome.error) else lastError) &&
            QueueOk(state', false, NoWorker, runId, issued, hasQueue,
                    queue + (pushed + [Terminal(worker.job.runId, outcome), Eof(worker.job.runId)]),
                    if logPath.Some? then logPath else runLogPath)
  {
    FinishedQueue(queue, pushed, Terminal(worker.job.runId, outcome), worker.job.runId);
  }

  /** Taking a prefix off the queue keeps it within its run, with no more sentinels. */
  lemma Drained(state: RunState, active: bool, worker: WorkerPhase, runId: Option<string>,
                issued: set<string>, hasQueue: bool, queue: seq<Event>, runLogPath: Option<string>, k: nat)
    requires k <= |queue| && hasQueue
    requires QueueOk(state, active, worker, runId, issued, hasQueue, queue, runLogPath)
    ensures QueueOk(state, active, worker, runId, issued, hasQueue, queue[k..], runLogPath)
  {
    DrainedQueue(queue, k);
  }

  /** Log items of the current run, appended to its queue, keep it within its run with no new
      sentinel. */
  lemma Tailed(state: RunState, active: bool, worker: WorkerPhase, runId: Option<string>,
               issued: set<string>, hasQueue: bool, queue: seq<Event>, runLogPath: Option<string>,
               pushed: seq<Event>)
    requires runId.Some? && QueueOk(state, active, worker, runId, issued, hasQueue, queue, runLogPath)
    requires NoEof(pushed) && forall i | 0 <= i < |pushed| :: pushed[i].runId == runId.value
    ensures QueueOk(state, active, worker, runId, issued, hasQueue, queue + pushed, runLogPath)
  {
    EofCountZero(pushed);
    EofCountAppend(queue, pushed);
  }

  lemma {:induction false} EofCountSuffix(q: seq<Event>, k: nat)
    requires k <= |q|
    ensures EofCount(q[k..]) <= EofCount(q)
    decreases k
  {
    if k > 0 {
      EofCountSuffix(q[1..], k - 1);
      assert q[1..][k - 1..] == q[k..];
    }
  }

  /** What a worker's finish leaves on a queue of its run that has no sentinel yet: items of
      that run only, ending in one sentinel. */
  lemma FinishedQueue(q: seq<Event>, pushed: seq<Event>, terminal: Event, id: string)
    requires NoEof(q) && (forall i | 0 <= i < |q| :: q[i].runId == id)
    requires OnlyProgress(id, pushed)
    requires terminal.runId == id && (terminal.RunFinished? || terminal.RunFailed?)
    ensures var q' := q + (pushed + [terminal, Eof(id)]);
            EofCount(q') == 1 && (forall i | 0 <= i < |q'| :: q'[i].runId == id)
  {
    var body := pushed + [terminal];
    assert NoEof(body);
    EofCountZero(body);
    EofCountZero(q);
    assert pushed + [terminal, Eof(id)] == body + [Eof(id)];
    EofCountAppend(body, [Eof(id)]);
    assert EofCount([Eof(id)]) == 1 by { assert [Eof(id)][1..] == []; }
    EofCountAppend(q, body + [Eof(id)]);
  }

  /** A queue the drain has consumed a prefix of still belongs to its run and holds no more
      sentinels than before. */
  lemma DrainedQueue(q: seq<Event>, k: nat)
    requires k <= |q|
    ensures EofCount(q[k..]) <= EofCount(q)
    ensures NoEof(q) ==> NoEof(q[k..])
    ensures forall i | 0 <= i < |q[k..]| :: q[k..][i] == q[k + i]
  {
    EofCountSuffix(q, k);
  }
}
