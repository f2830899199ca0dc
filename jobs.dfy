/**
 * The job records the gateway reads from its queue, the payload it writes into
 * them, and the outcome body (`ParseResult`) that the worker returns and the
 * result cache stores.
 */
module Jobs {
  import opened Wrappers
  import opened JsValues

  /** The states the queue reports for a job id; Unknown is its answer for an id it does not hold. */
  datatype JobState =
    | Waiting | Active | Delayed | Prioritized | WaitingChildren | Completed | Failed | Unknown

  /** The state name as the queue reports it and the routes echo it. */
  function StateName(s: JobState): string {
    match s
    case Waiting => "waiting"
    case Active => "active"
    case Delayed => "delayed"
    case Prioritized => "prioritized"
    case WaitingChildren => "waiting-children"
    case Completed => "completed"
    case Failed => "failed"
    case Unknown => "unknown"
  }

  predicate IsTerminal(s: JobState) {
    s == Completed || s == Failed
  }

  /**
   * The job payload as the worker receives it: a JSON dictionary, so every key
   * may be absent (None).
   */
  datatype JobData = JobData(
    jobId: string,
    jobType: string,
    source: Option<string>,
    fileName: Option<string>,
    ocrEngine: Option<string>,
    outputFormats: Option<seq<string>>,
    targetType: Option<string>)

  /** One exported rendition of a document: text (markdown, doctags, html) or a JSON tree. */
  datatype Content = Text(text: string) | Structured(tree: Json)

  /** The `formats` dictionary, keyed by format name. */
  type Formats = map<string, Content>

  datatype Metadata = Metadata(pages: Option<int>, processingTime: Option<int>, error: Option<string>)

  datatype ResultStatus = CompletedStatus | FailedStatus

  /** The outcome body of a task (`ParseResult`); `formats` is absent on a failure envelope. */
  datatype ParseResult = ParseResult(
    jobId: string,
    status: ResultStatus,
    formats: Option<Formats>,
    metadata: Metadata,
    createdAt: Option<int>)

  /**
   * A job record of the queue. `returnvalue` is what the worker returned; None
   * stands for every falsy value (the worker itself always returns an object).
   */
  datatype Job = Job(
    id: string,
    name: string,
    data: JobData,
    state: JobState,
    progress: Json,
    processedOn: Option<int>,
    finishedOn: Option<int>,
    failedReason: Option<string>,
    returnvalue: Option<ParseResult>)

  /** A job as the queue creates it on `add`: waiting, progress 0, no timestamps, no result. */
  function NewJob(id: string, name: string, data: JobData): (j: Job)
    ensures j.id == id && j.name == name && j.data == data
    ensures j.state == Waiting && j.progress == JNum(0.0)
    ensures j.processedOn.None? && j.finishedOn.None? && j.failedReason.None? && j.returnvalue.None?
  {
    Job(id, name, data, Waiting, JNum(0.0), None, None, None, None)
  }

  /** The queue's store as seen by one read: unreachable (every call throws) or a map from job id to record. */
  datatype QueueView = Unreachable | Reachable(jobs: map<string, Job>)

  /** `job.getState()` for a job id against one view of the store. */
  function StateOf(view: QueueView, id: string): (s: JobState)
    requires view.Reachable?
    ensures id in view.jobs ==> s == view.jobs[id].state
    ensures id !in view.jobs ==> s == Unknown
  {
    if id in view.jobs then view.jobs[id].state else Unknown
  }
}
