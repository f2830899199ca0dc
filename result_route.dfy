/**
 * The result endpoint: an early-return ladder (unknown id, not completed, no
 * result) and, on success with single-use results on, a deferred removal of
 * the job, modelled as a timer added to the queue's pending removals.
 */
module ResultRoute {
  import opened Wrappers
  import opened Jobs
  import opened Settings
  import opened JobQueue

  /** The success body; its `status` is always "completed". */
  datatype ResultBody = ResultBody(taskId: string, formats: Option<Formats>, metadata: Metadata, completedAt: Option<int>)

  datatype ResultResponse =
    | Delivered(body: ResultBody)
    | TaskNotFound
    | NotCompleted(state: JobState)
    | NoResult
    | ServerError
  {
    function Code(): int {
      match this
      case Delivered(_) => 200
      case TaskNotFound => 404
      case NotCompleted(_) => 400
      case NoResult => 404
      case ServerError => 500
    }

    /** The `error` text; a not-completed answer also echoes the state in its `status` field. */
    function ErrorText(): Option<string> {
      match this
      case Delivered(_) => None
      case TaskNotFound => Some("Task not found")
      case NotCompleted(s) => Some("Task is not completed. Current status: " + StateName(s))
      case NoResult => Some("No result available")
      case ServerError => Some("Internal server error")
    }
  }

  /**
   * The decision for `taskId` against one read of the store: 500 when the store
   * fails, 404 for an unknown id, 400 with the current state for any state but
   * completed (failed included), 404 for a completed job without a result, and
   * otherwise the result's formats and metadata with the finish time.
   */
  function Decide(taskId: string, view: QueueView): (r: ResultResponse)
    ensures view.Unreachable? <==> r == ServerError
    ensures view.Reachable? ==>
      && (taskId !in view.jobs <==> r == TaskNotFound)
      && (taskId in view.jobs && view.jobs[taskId].state != Completed <==> r == NotCompleted(StateOf(view, taskId)))
      && (taskId in view.jobs && view.jobs[taskId].state == Completed && view.jobs[taskId].returnvalue.None? <==> r == NoResult)
    ensures r.Delivered? <==>
      view.Reachable? && taskId in view.jobs && view.jobs[taskId].state == Completed && view.jobs[taskId].returnvalue.Some?
    ensures r.Delivered? ==>
      var job := view.jobs[taskId];
      r.body == ResultBody(taskId, job.returnvalue.value.formats, job.returnvalue.value.metadata, job.finishedOn)
  {
    match view
    case Unreachable => ServerError
    case Reachable(jobs) =>
      if taskId !in jobs then TaskNotFound
      else
        var job := jobs[taskId];
        if job.state != Completed then NotCompleted(job.state)
        else if job.returnvalue.None? then NoResult
        else
          var result := job.returnvalue.value;
          Delivered(ResultBody(taskId, result.formats, result.metadata, job.finishedOn))
  }

  /**
   * The handler at clock `now`. The response is decided on the current store;
   * the removal it may schedule is only armed, so the store is unchanged.
   * `toggle` and `delay` are the raw SINGLE_USE_RESULTS and RESULT_REMOVAL_DELAY.
   */
  method FetchResult(q: Queue, taskId: string, reachable: bool, toggle: Option<string>, delay: Option<string>, now: int)
    returns (resp: ResultResponse)
    modifies q`removals
    ensures resp == Decide(taskId, q.View(reachable))
    ensures resp.Delivered? && SingleUse(toggle) ==>
      q.removals == old(q.removals) + {Removal(taskId, now + RemovalDelay(delay))}
    ensures !(resp.Delivered? && SingleUse(toggle)) ==> q.removals == old(q.removals)
    ensures forall r :: r in q.removals - old(q.removals) ==> r.fireAt > now
  {
    resp := Decide(taskId, q.View(reachable));
    if resp.Delivered? && SingleUse(toggle) {
      q.ScheduleRemoval(Removal(taskId, now + RemovalDelay(delay)));
    }
  }

  /**
   * Reads before the removal fires still deliver: as long as no removal of
   * `taskId` is due, running the timers leaves the answer unchanged.
   */
  lemma ReadBeforeRemovalStillDelivers(jobs: map<string, Job>, removals: set<Removal>, now: int, failing: set<string>, taskId: string)
    requires Decide(taskId, Reachable(jobs)).Delivered?
    requires forall r :: r in removals && r.taskId == taskId ==> r.fireAt > now
    ensures Decide(taskId, Reachable(AfterRemovals(jobs, removals, now, failing))) == Decide(taskId, Reachable(jobs))
  {
    RemovalNotYetDue(jobs, removals, now, failing, taskId);
  }

  /** Once a removal of `taskId` has fired and succeeded, the id is unknown. */
  lemma ReadAfterRemovalIsNotFound(jobs: map<string, Job>, removals: set<Removal>, now: int, failing: set<string>, taskId: string, fireAt: int)
    requires Removal(taskId, fireAt) in removals && fireAt <= now && taskId !in failing
    ensures Decide(taskId, Reachable(AfterRemovals(jobs, removals, now, failing))) == TaskNotFound
  {
    assert Removal(taskId, fireAt) in Due(removals, now);
  }
}
