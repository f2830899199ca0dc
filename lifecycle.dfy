/**
 * How the endpoints fit together over one job: a submission files a job, the
 * status and result endpoints look it up by the task id the submission
 * returned. The enqueue call in the submission handlers passes the task id as
 * the job's name only, so the queue files the job under an id of its own
 * counter; the lemmas below show the consequence and that passing the task id
 * as the job id repairs it.
 */
module Lifecycle {
  import opened Wrappers
  import opened JsValues
  import opened Jobs
  import opened JobQueue
  import opened Schemas
  import opened ParseRoute
  import Worker
  import StatusRoute
  import ResultRoute

  /**
   * As written: after the enqueue the job sits under the counter id, which is
   * all digits, so a task id holding any other character (the generator's ids
   * almost always do) is unknown to the result endpoint and reported as
   * "unknown" by the state lookup.
   */
  lemma AsWrittenTaskIsNotFound(jobs: map<string, Job>, counter: nat, taskId: string, data: JobData, k: nat)
    requires taskId !in jobs
    requires k < |taskId| && !IsDigit(taskId[k], 10)
    ensures var after := Reachable(jobs[CounterId(counter) := NewJob(CounterId(counter), taskId, data)]);
      && ResultRoute.Decide(taskId, after) == ResultRoute.TaskNotFound
      && StateOf(after, taskId) == Unknown
  {
    var id := CounterId(counter);
    assert id != taskId by {
      assert |id| <= k || IsDigit(id[k], 10);
    }
  }

  /** A concrete instance: the first job enqueued into an empty queue is filed under "1", not under its task id. */
  lemma AsWrittenFirstJob(data: JobData)
    ensures CounterId(0) == "1"
    ensures ResultRoute.Decide("x1Yz", Reachable(map[CounterId(0) := NewJob(CounterId(0), "x1Yz", data)])) == ResultRoute.TaskNotFound
  {
    assert NatToString(1) == "1";
  }

  /**
   * Corrected: with the task id as the job id, the job is found at once, is
   * waiting, and both reading endpoints say so.
   */
  lemma CorrectedTaskIsWaiting(jobs: map<string, Job>, taskId: string, data: JobData)
    requires taskId !in jobs
    ensures var after := Reachable(jobs[taskId := NewJob(taskId, taskId, data)]);
      && ResultRoute.Decide(taskId, after) == ResultRoute.NotCompleted(Waiting)
      && StatusRoute.DescribeStatus(taskId, StateOf(after, taskId), after.jobs[taskId]).status == Waiting
      && StatusRoute.DescribeStatus(taskId, StateOf(after, taskId), after.jobs[taskId]).fields == StatusRoute.NoFields
  {
  }

  /**
   * As written, end to end: the by-reference handler accepts the submission and
   * answers with the task id, yet a status poll for that id answers 404 at
   * once, whatever the timeout, and so does the result route.
   */
  method AsWrittenSubmitThenPoll(q: Queue, body: Option<Json>, isUrl: string -> bool, freshId: string,
                                 query: Option<string>, t0: int, k: nat)
    returns (submitted: ParseRoute.SubmitResponse, polled: StatusRoute.PollResponse, fetched: ResultRoute.ResultResponse)
    requires freshId !in q.jobs
    requires k < |freshId| && !IsDigit(freshId[k], 10)
    modifies q`jobs, q`counter
    ensures submitted.Accepted? <==> body.Some? && ValidateSource(body.value, isUrl).Ok?
    ensures submitted.Accepted? ==> submitted.taskId == freshId
    ensures polled == StatusRoute.TaskNotFound && fetched == ResultRoute.TaskNotFound
  {
    ghost var before := q.jobs;
    ghost var counter := q.counter;
    submitted := ParseRoute.SubmitSource(q, body, isUrl, freshId, true);
    var jobs := q.jobs;
    if submitted.Accepted? {
      var payload := SourceDecision(body, isUrl, freshId).value;
      AsWrittenTaskIsNotFound(before, counter, freshId, payload, k);
    }
    var tEnd: int;
    ghost var rounds: nat;
    polled, tEnd, rounds := StatusRoute.PollStatus(freshId, query, (t: int) => Reachable(jobs), t0);
    fetched := ResultRoute.Decide(freshId, Reachable(jobs));
  }

  /**
   * Corrected, end to end: an accepted by-reference submission is, while no
   * worker picks it up, polled as waiting (once the timeout runs out) and its
   * result is refused with the state "waiting".
   */
  method SubmitThenPoll(q: Queue, body: Option<Json>, isUrl: string -> bool, freshId: string, query: Option<string>, t0: int)
    returns (submitted: ParseRoute.SubmitResponse, polled: StatusRoute.PollResponse, fetched: ResultRoute.ResultResponse)
    requires freshId !in q.jobs
    modifies q`jobs, q`counter
    ensures submitted.Accepted? <==> body.Some? && ValidateSource(body.value, isUrl).Ok?
    ensures submitted.Accepted? ==>
      && polled.PollOk? && polled.body.status == Waiting && polled.body.fields == StatusRoute.NoFields
      && fetched == ResultRoute.NotCompleted(Waiting)
    ensures !submitted.Accepted? ==> polled == StatusRoute.TaskNotFound && fetched == ResultRoute.TaskNotFound
  {
    ghost var before := q.jobs;
    submitted := ParseRoute.SubmitSourceWithJobId(q, body, isUrl, freshId, true);
    var jobs := q.jobs;
    if submitted.Accepted? {
      var payload := SourceDecision(body, isUrl, freshId).value;
      assert jobs == before[freshId := NewJob(freshId, freshId, payload)];
      CorrectedTaskIsWaiting(before, freshId, payload);
    } else {
      assert freshId !in jobs;
    }
    var view := (t: int) => Reachable(jobs);
    var tEnd: int;
    ghost var rounds: nat;
    polled, tEnd, rounds := StatusRoute.PollStatus(freshId, query, view, t0);
    assert view(tEnd) == view(t0) == Reachable(jobs);
    fetched := ResultRoute.Decide(freshId, Reachable(jobs));
  }

  /** A storage read that the worker would do against the objects `objects`. */
  function ReadObject(objects: map<string, StoredObject>): (read: string -> Result<Bytes, string>)
    ensures forall k :: k in objects ==> read(k) == Ok(objects[k].body)
    ensures forall k :: k !in objects ==> read(k).Err?
  {
    (k: string) => if k in objects then Ok(objects[k].body) else Err("NoSuchKey")
  }

  /** A by-reference job makes the worker download exactly the submitted URL. */
  lemma SourceJobFetchesItsUrl(jobId: string, v: SourceRequest,
                               fetchUrl: string -> Result<Bytes, string>, fetchObject: string -> Result<Bytes, string>)
    requires v.sourceUrl != ""
    ensures var got := fetchUrl(v.sourceUrl);
      Worker.FetchInput(SourcePayload(jobId, v), fetchUrl, fetchObject) ==
        (if got.Ok? then Ok(Worker.Downloaded(got.value)) else Err(got.error))
  {
  }

  /**
   * A file job makes the worker read back exactly the bytes the submission
   * uploaded: the payload names the key the upload wrote.
   */
  lemma FileJobReadsItsUpload(objects: map<string, StoredObject>, jobId: string, fileName: string,
                              body: Bytes, contentType: string, v: FileRequest,
                              fetchUrl: string -> Result<Bytes, string>)
    ensures var key := FileKey(jobId, fileName);
      var after := objects[key := StoredObject(body, contentType)];
      Worker.FetchInput(FilePayload(jobId, key, v), fetchUrl, ReadObject(after)) == Ok(Worker.Downloaded(body))
  {
    var key := FileKey(jobId, fileName);
    assert key[|jobId|] == '/';
    assert Worker.Truthy(Some(key));
  }

  /** The worker exports exactly the formats the schema accepted: every accepted name is one it knows. */
  lemma {:induction false} AcceptedFormatsAreExported(fs: seq<OutputFormat>)
    ensures Worker.KnownRequested(FormatNames(fs)) == set i | 0 <= i < |fs| :: OutputFormatName(fs[i])
  {
    var names := FormatNames(fs);
    forall f | f in Worker.KnownRequested(names)
      ensures f in set i | 0 <= i < |fs| :: OutputFormatName(fs[i])
    {
      var i :| 0 <= i < |names| && names[i] == f;
      assert OutputFormatName(fs[i]) == f;
    }
    forall i | 0 <= i < |fs|
      ensures OutputFormatName(fs[i]) in Worker.KnownRequested(names)
    {
      assert names[i] == OutputFormatName(fs[i]);
      assert OutputFormatName(fs[i]) in Worker.KnownFormats;
    }
  }
}
