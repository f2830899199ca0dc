/**
 * The job store behind the gateway: job records by job id, the id counter the
 * queue uses for jobs added without an explicit id, and the pending deferred
 * `job.remove()` timers of the result route. The clock is an integer in ms.
 */
module JobQueue {
  import opened Wrappers
  import opened JsValues
  import opened Jobs

  /** A deferred removal of a job: its id and the clock time its timer fires. */
  datatype Removal = Removal(taskId: string, fireAt: int)

  /** The id the queue gives a job added without an explicit id: the next counter value, in decimal. */
  function CounterId(counter: nat): (id: string)
    ensures |id| >= 1 && forall i :: 0 <= i < |id| ==> IsDigit(id[i], 10)
  {
    NatToString(counter + 1)
  }

  /** The removals whose timers have fired by `now`. */
  function Due(removals: set<Removal>, now: int): (due: set<Removal>)
    ensures due <= removals
    ensures forall r :: r in due <==> r in removals && r.fireAt <= now
  {
    set r | r in removals && r.fireAt <= now
  }

  /**
   * The jobs left after the due removals ran; a removal whose id is in `failing`
   * fails, and its failure is only logged.
   */
  function AfterRemovals(jobs: map<string, Job>, removals: set<Removal>, now: int, failing: set<string>): (left: map<string, Job>)
    ensures left.Keys <= jobs.Keys
    ensures forall id :: id in left ==> left[id] == jobs[id]
    ensures forall id :: id in jobs && id !in left <==>
      id in jobs && id !in failing && exists r :: r in removals && r.fireAt <= now && r.taskId == id
  {
    jobs - (set r | r in Due(removals, now) && r.taskId !in failing :: r.taskId)
  }

  /** A job with no removal due yet is still there, unchanged. */
  lemma RemovalNotYetDue(jobs: map<string, Job>, removals: set<Removal>, now: int, failing: set<string>, id: string)
    requires id in jobs
    requires forall r :: r in removals && r.taskId == id ==> r.fireAt > now
    ensures id in AfterRemovals(jobs, removals, now, failing)
    ensures AfterRemovals(jobs, removals, now, failing)[id] == jobs[id]
  {
  }

  /** Running the timers a second time at the same clock changes nothing: removal is idempotent. */
  lemma FiringIsIdempotent(jobs: map<string, Job>, removals: set<Removal>, now: int, failing: set<string>)
    ensures AfterRemovals(AfterRemovals(jobs, removals, now, failing), removals - Due(removals, now), now, failing)
         == AfterRemovals(jobs, removals, now, failing)
  {
    var left := AfterRemovals(jobs, removals, now, failing);
    assert Due(removals - Due(removals, now), now) == {};
    assert AfterRemovals(left, removals - Due(removals, now), now, failing) == left;
  }

  class Queue {
    var jobs: map<string, Job>
    var counter: nat
    var removals: set<Removal>

    constructor (jobs: map<string, Job>)
      ensures this.jobs == jobs && counter == 0 && removals == {}
    {
      this.jobs := jobs;
      counter := 0;
      removals := {};
    }

    /** The store as one read sees it; `reachable` says whether the backing store answers. */
    function View(reachable: bool): (v: QueueView)
      reads this
      ensures v.Reachable? <==> reachable
      ensures reachable ==> v.jobs == jobs
    {
      if reachable then Reachable(jobs) else Unreachable
    }

    /**
     * `queue.add(name, data)` without a job-id option: the job is stored under
     * the next counter id, whatever its name. `ok` is false when the store rejects
     * the call; nothing changes then.
     */
    method Add(name: string, data: JobData, ok: bool) returns (id: Option<string>)
      modifies this`jobs, this`counter
      ensures !ok ==> id.None? && jobs == old(jobs) && counter == old(counter)
      ensures ok ==> id == Some(CounterId(old(counter)))
      ensures ok ==> counter == old(counter) + 1
      ensures ok ==> jobs == old(jobs)[CounterId(old(counter)) := NewJob(CounterId(old(counter)), name, data)]
    {
      if !ok {
        return None;
      }
      var newId := CounterId(counter);
      jobs := jobs[newId := NewJob(newId, name, data)];
      counter := counter + 1;
      id := Some(newId);
    }

    /**
     * `queue.add(name, data, { jobId })`: the job is stored under the given id;
     * when that id is already taken the existing job is kept and nothing is added.
     */
    method AddWithId(name: string, data: JobData, jobId: string, ok: bool) returns (id: Option<string>)
      modifies this`jobs, this`counter
      ensures !ok ==> id.None? && jobs == old(jobs) && counter == old(counter)
      ensures ok ==> id == Some(jobId) && counter == old(counter) + 1
      ensures ok && jobId in old(jobs) ==> jobs == old(jobs)
      ensures ok && jobId !in old(jobs) ==> jobs == old(jobs)[jobId := NewJob(jobId, name, data)]
    {
      if !ok {
        return None;
      }
      if jobId !in jobs {
        jobs := jobs[jobId := NewJob(jobId, name, data)];
      }
      counter := counter + 1;
      id := Some(jobId);
    }

    /** Arms a deferred removal timer. */
    method ScheduleRemoval(r: Removal)
      modifies this`removals
      ensures removals == old(removals) + {r}
    {
      removals := removals + {r};
    }

    /**
     * The timers that are due at `now` fire: each removes its job unless the
     * removal fails (ids in `failing`); every fired timer is gone afterwards.
     */
    method FireRemovals(now: int, failing: set<string>)
      modifies this`jobs, this`removals
      ensures jobs == AfterRemovals(old(jobs), old(removals), now, failing)
      ensures removals == old(removals) - Due(old(removals), now)
      ensures forall r :: r in removals ==> r.fireAt > now
    {
      jobs := AfterRemovals(jobs, removals, now, failing);
      removals := removals - Due(removals, now);
    }
  }
}
