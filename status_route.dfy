/**
 * The status endpoint with optional long polling. One read finds the job;
 * when a positive timeout (seconds) is given, the state is sampled every
 * 500 ms until it is terminal or the clamped wait has elapsed; a last read
 * gives the reported state. The store is a function of the clock because the
 * worker changes it while the handler sleeps.
 */
module StatusRoute {
  import opened Wrappers
  import opened JsValues
  import opened Jobs

  /** Time between two samples of the state, in ms. */
  const PollInterval: int := 500
  /** Hard cap on the long-poll wait, in ms. */
  const MaxLongPoll: int := 30000

  /** The timeout in seconds from the query: `parseInt(timeout || "0")`; None is NaN. */
  function RequestedTimeout(query: Option<string>): (t: Option<int>)
    ensures query.Some? && query.value != "" ==> t == ParseInt(query.value)
    ensures query.None? || query == Some("") ==> t == Some(0)
  {
    assert NatToString(0) == "0";
    ParseIntOfNatToString(0);
    ParseInt(OrDefault(query, "0"))
  }

  /** The effective wait in ms: 0 unless the timeout is a positive number, then `min(timeout * 1000, 30000)`. */
  function MaxWait(query: Option<string>): (w: int)
    ensures 0 <= w <= MaxLongPoll
    ensures w == 0 <==> RequestedTimeout(query).None? || RequestedTimeout(query).value <= 0
    ensures w > 0 ==> w <= RequestedTimeout(query).value * 1000
    ensures w > 0 && w < MaxLongPoll ==> w == RequestedTimeout(query).value * 1000
  {
    var timeout := RequestedTimeout(query);
    if timeout.Some? && timeout.value > 0 then Min(timeout.value * 1000, MaxLongPoll) else 0
  }

  function Min(a: int, b: int): int {
    if a <= b then a else b
  }

  /** A missing or empty timeout does no waiting. */
  lemma MissingTimeoutDoesNotWait(query: Option<string>)
    requires query.None? || query == Some("")
    ensures MaxWait(query) == 0
  {
    assert OrDefault(query, "0") == NatToString(0);
    ParseIntOfNatToString(0);
  }

  /** A non-numeric timeout (parseInt gives NaN, and NaN > 0 is false) does no waiting. */
  lemma NonNumericTimeoutDoesNotWait(q: string)
    requires q != "" && ParseInt(q).None?
    ensures MaxWait(Some(q)) == 0
  {
  }

  /** Any timeout of 30 seconds or more is clamped to the 30 s cap. */
  lemma LongTimeoutIsClamped(seconds: nat)
    requires seconds >= 30
    ensures MaxWait(Some(NatToString(seconds))) == MaxLongPoll
  {
    ParseIntOfNatToString(seconds);
  }

  /** The extra fields of a status response, by state. */
  datatype StateFields =
    | NoFields
    | CompletedFields(completedAt: Option<int>)
    | FailedFields(error: Option<string>, failedAt: Option<int>)
    | ActiveFields(startedAt: Option<int>)

  datatype StatusBody = StatusBody(taskId: string, status: JobState, progress: Json, fields: StateFields)

  datatype PollResponse = PollOk(body: StatusBody) | TaskNotFound | ServerError {
    function Code(): int {
      match this
      case PollOk(_) => 200
      case TaskNotFound => 404
      case ServerError => 500
    }

    /** The `error` text of a non-200 response; the 500 carries no internal detail. */
    function ErrorText(): Option<string> {
      match this
      case PollOk(_) => None
      case TaskNotFound => Some("Task not found")
      case ServerError => Some("Internal server error")
    }
  }

  /**
   * The status response for the reported `state`, built from the record `job`
   * (the one read when the job was found): id, status and progress always;
   * completed adds the finish time, failed the reason and finish time, active
   * the start time, other states nothing.
   */
  function DescribeStatus(taskId: string, state: JobState, job: Job): (b: StatusBody)
    ensures b.taskId == taskId && b.status == state && b.progress == job.progress
    ensures state == Completed <==> b.fields == CompletedFields(job.finishedOn)
    ensures state == Failed <==> b.fields == FailedFields(job.failedReason, job.finishedOn)
    ensures state == Active <==> b.fields == ActiveFields(job.processedOn)
    ensures state !in {Completed, Failed, Active} <==> b.fields == NoFields
  {
    var fields :=
      if state == Completed then CompletedFields(job.finishedOn)
      else if state == Failed then FailedFields(job.failedReason, job.finishedOn)
      else if state == Active then ActiveFields(job.processedOn)
      else NoFields;
    StatusBody(taskId, state, job.progress, fields)
  }

  /** A sample that keeps the loop going: the store answered and the job is not terminal. */
  predicate StillPending(v: QueueView, taskId: string) {
    v.Reachable? && !IsTerminal(StateOf(v, taskId))
  }

  /** The clock after `i` sleeps of a poll begun at `t0`. */
  function SampleTime(t0: int, i: nat): (t: int)
    ensures t == t0 + i * PollInterval
  {
    if i == 0 then t0 else SampleTime(t0, i - 1) + PollInterval
  }

  /**
   * The sampling loop, from clock `t0` for at most `maxWait` ms: it stops when
   * a read fails (`failed`), when the state is terminal, or when the wait has
   * elapsed. `rounds` counts the sleeps.
   */
  method WaitForTerminal(taskId: string, view: int -> QueueView, t0: int, maxWait: int)
    returns (tEnd: int, ghost rounds: nat, failed: bool)
    ensures tEnd == SampleTime(t0, rounds)
    ensures maxWait <= 0 ==> rounds == 0 && !failed
    ensures tEnd - t0 < maxWait + PollInterval || rounds == 0
    ensures forall i: nat :: i < rounds ==> StillPending(view(SampleTime(t0, i)), taskId)
    ensures failed ==> view(tEnd).Unreachable?
    ensures !failed && tEnd - t0 < maxWait ==> view(tEnd).Reachable? && IsTerminal(StateOf(view(tEnd), taskId))
  {
    tEnd, rounds, failed := t0, 0, false;
    while tEnd - t0 < maxWait
      invariant tEnd == SampleTime(t0, rounds)
      invariant tEnd - t0 < maxWait + PollInterval || rounds == 0
      invariant forall i: nat :: i < rounds ==> StillPending(view(SampleTime(t0, i)), taskId)
      decreases maxWait - (tEnd - t0)
    {
      var sample := view(tEnd);
      if sample.Unreachable? {
        return tEnd, rounds, true;
      }
      if IsTerminal(StateOf(sample, taskId)) {
        return tEnd, rounds, false;
      }
      tEnd, rounds := tEnd + PollInterval, rounds + 1;
    }
  }

  /**
   * The handler, started at clock `t0` against the store `view` (its content
   * at each instant). Reads are instantaneous and each sleep lasts exactly
   * PollInterval. Returns the response and the clock when it is sent; `rounds`
   * counts the sleeps, each preceded by a read that found the job pending.
   */
  method PollStatus(taskId: string, query: Option<string>, view: int -> QueueView, t0: int)
    returns (resp: PollResponse, tEnd: int, ghost rounds: nat)
    ensures tEnd == SampleTime(t0, rounds)
    ensures rounds * PollInterval < MaxWait(query) + PollInterval
    ensures view(t0).Unreachable? ==> resp == ServerError && rounds == 0
    ensures view(t0).Reachable? && taskId !in view(t0).jobs ==> resp == TaskNotFound && rounds == 0
    ensures MaxWait(query) == 0 ==> rounds == 0
    ensures tEnd - t0 < MaxWait(query) + PollInterval
    ensures forall i: nat :: i < rounds ==> StillPending(view(SampleTime(t0, i)), taskId)
    ensures view(t0).Reachable? && taskId in view(t0).jobs ==>
      && (resp.PollOk? || resp.ServerError?)
      && (resp.ServerError? <==> view(tEnd).Unreachable?)
      && (resp.PollOk? ==> resp.body == DescribeStatus(taskId, StateOf(view(tEnd), taskId), view(t0).jobs[taskId]))
    ensures resp.PollOk? && tEnd - t0 < MaxWait(query) ==> IsTerminal(resp.body.status)
  {
    var first := view(t0);
    if first.Unreachable? {
      return ServerError, t0, 0;
    }
    if taskId !in first.jobs {
      return TaskNotFound, t0, 0;
    }
    var job := first.jobs[taskId];
    var timeout := RequestedTimeout(query);
    var maxWait := if timeout.Some? && timeout.value > 0 then Min(timeout.value * 1000, MaxLongPoll) else 0;
    assert maxWait == MaxWait(query);
    var failed;
    tEnd, rounds, failed := WaitForTerminal(taskId, view, t0, maxWait);
    if failed {
      return ServerError, tEnd, rounds;
    }
    var last := view(tEnd);
    if last.Unreachable? {
      return ServerError, tEnd, rounds;
    }
    resp := PollOk(DescribeStatus(taskId, StateOf(last, taskId), job));
  }
}
