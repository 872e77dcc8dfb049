/**
 * packages/backend-queue: the in-memory job queue. A queue keeps its jobs
 * by id, one handler per job type and a counter that numbers the jobs it
 * creates. `add` stores a queued job and defers its dispatch; a deferred
 * dispatch (the `setImmediate` callback) is the explicit step `Dispatch`,
 * and the resumption of `_processJob` once the handler's promise settles is
 * the step `Complete`, given the handler's outcome. Handlers are opaque
 * tokens; the clock is the parameter `now`. Emitted events are recorded in
 * order with a copy of the job at the time of the emit.
 */
module Queue {
  import opened Common
  import opened Strs

  datatype JobStatus = Queued | Processing | Completed | Failed

  datatype Job = Job(id: string, jobType: string, data: Value, status: JobStatus, createdAt: int,
                     options: Value, result: Option<Value>, error: Option<string>, completedAt: Option<int>)

  /** A registered processor, known only by identity. */
  datatype Handler = Handler(name: string)

  /** How the handler's promise settled: a resolved value or a thrown error's message. */
  datatype Outcome = Success(value: Value) | Thrown(message: string)

  datatype EventName = JobAdded | JobProcessing | JobCompleted | JobFailed
  datatype Event = Event(name: EventName, job: Job)

  // ----- job ids -----

  /** `job_${counter}_${now}`: three `_`-separated parts, `job` and the two numbers in decimal. */
  function JobId(counter: nat, now: nat): (r: string)
    ensures Split(r, '_') == ["job", NatToString(counter), NatToString(now)]
  {
    var c := NatToString(counter);
    var t := NatToString(now);
    var r := "job_" + c + "_" + t;
    assert r == "job" + ['_'] + (c + ['_'] + t);
    assert '_' !in c by { assert forall i :: 0 <= i < |c| ==> IsDigit(c[i]); }
    assert '_' !in t by { assert forall i :: 0 <= i < |t| ==> IsDigit(t[i]); }
    SplitCons("job", c + ['_'] + t, '_');
    SplitTwo(c, t, '_');
    r
  }

  /** The counter an id of the form `job_<digits>_<digits>` carries. */
  function CounterOf(id: string): Option<nat> {
    var parts := Split(id, '_');
    if |parts| == 3 && parts[0] == "job" && parts[1] != [] && AllDigits(parts[1]) && AllDigits(parts[2])
    then Some(DigitsValue(parts[1]))
    else None
  }

  /** The counter can be read back from every id the queue creates. */
  lemma JobIdEmbedsCounter(counter: nat, now: nat)
    ensures CounterOf(JobId(counter, now)) == Some(counter)
  {
    NatToStringRoundTrip(counter);
  }

  /** Ids created with different counter values differ, whatever the clock says. */
  lemma JobIdsDistinct(c1: nat, t1: nat, c2: nat, t2: nat)
    requires c1 != c2
    ensures JobId(c1, t1) != JobId(c2, t2)
  {
    JobIdEmbedsCounter(c1, t1);
    JobIdEmbedsCounter(c2, t2);
  }

  // ----- the lifecycle of one job -----

  /**
   * Which of `result`, `error` and `completedAt` a job in each status has
   * set: a completed job has a result and no error, a failed one the
   * reverse, and a job not yet finished neither.
   */
  predicate Shape(j: Job) {
    match j.status
    case Queued => j.result.None? && j.error.None? && j.completedAt.None?
    case Processing => j.result.None? && j.error.None? && j.completedAt.None?
    case Completed => j.result.Some? && j.error.None? && j.completedAt.Some?
    case Failed => j.result.None? && j.error.Some? && j.completedAt.None?
  }

  /** The status changes `_processJob` makes: queued to processing or failed, processing to completed or failed. */
  predicate Allowed(from: JobStatus, to: JobStatus) {
    (from == Queued && (to == Processing || to == Failed))
    || (from == Processing && (to == Completed || to == Failed))
  }

  /** A queued job whose type has no processor: failed with a message naming the type. */
  function NoProcessor(j: Job): Job {
    j.(status := Failed, error := Some("No processor registered for type: " + j.jobType))
  }

  /** A queued job handed to its processor. */
  function Started(j: Job): Job {
    j.(status := Processing)
  }

  /** A processing job once its handler's promise has settled at time `now`. */
  function Finished(j: Job, outcome: Outcome, now: int): Job {
    match outcome
    case Success(v) => j.(status := Completed, result := Some(v), completedAt := Some(now))
    case Thrown(msg) => j.(status := Failed, error := Some(msg))
  }

  /** A new job is queued with nothing set. */
  lemma NewJobShape(id: string, jobType: string, data: Value, now: int, options: Value)
    ensures var j := Job(id, jobType, data, Queued, now, options, None, None, None);
      Shape(j) && j.status == Queued
  {
  }

  /** Failing for want of a processor skips `processing` and sets only the error. */
  lemma NoProcessorStep(j: Job)
    requires Shape(j) && j.status == Queued
    ensures var k := NoProcessor(j);
      Shape(k) && Allowed(j.status, k.status) && k.status == Failed && k.result.None?
      && k.error == Some("No processor registered for type: " + j.jobType)
      && k.id == j.id && k.jobType == j.jobType && k.data == j.data
  {
  }

  lemma StartedStep(j: Job)
    requires Shape(j) && j.status == Queued
    ensures Shape(Started(j)) && Allowed(j.status, Started(j).status) && Started(j).status == Processing
  {
  }

  /**
   * A handler that resolves completes the job with its value and the time,
   * never setting `error`; one that throws fails it with the message,
   * never setting `result`.
   */
  lemma FinishedStep(j: Job, outcome: Outcome, now: int)
    requires Shape(j) && j.status == Processing
    ensures var k := Finished(j, outcome, now);
      Shape(k) && Allowed(j.status, k.status) && k.id == j.id && k.jobType == j.jobType && k.data == j.data
      && (outcome.Success? ==> k.status == Completed && k.result == Some(outcome.value)
                               && k.completedAt == Some(now) && k.error.None?)
      && (outcome.Thrown? ==> k.status == Failed && k.error == Some(outcome.message) && k.result.None?)
  {
  }

  /** No status is reached from a finished job, and none skips straight from queued to completed. */
  lemma FinishedIsFinal(from: JobStatus, to: JobStatus)
    ensures (from == Completed || from == Failed) ==> !Allowed(from, to)
    ensures !Allowed(Queued, Completed)
  {
  }

  /**
   * Every job is stored under its id, has the fields its status calls for,
   * and its id carries a counter value no larger than `counter`.
   */
  predicate WellNumbered(jobs: map<string, Job>, counter: nat) {
    (forall k :: k in jobs ==> jobs[k].id == k && Shape(jobs[k]))
    && (forall k {:trigger CounterOf(k)} :: k in jobs ==> CounterOf(k).Some? && CounterOf(k).value <= counter)
  }

  /** Replacing a stored job by one with the same id and a proper shape keeps the jobs well numbered. */
  lemma ReplaceKeepsNumbered(jobs: map<string, Job>, counter: nat, id: string, j: Job)
    requires WellNumbered(jobs, counter) && id in jobs && j.id == id && Shape(j)
    ensures WellNumbered(jobs[id := j], counter)
  {
  }

  /**
   * The queue's invariant over its maps: the jobs are well numbered and the
   * processing jobs are exactly the running ones.
   */
  predicate QueueState(jobs: map<string, Job>, running: map<string, Handler>, counter: nat) {
    WellNumbered(jobs, counter)
    && (forall k :: k in running ==> k in jobs && jobs[k].status == Processing)
    && (forall k :: k in jobs && jobs[k].status == Processing ==> k in running)
  }

  /** A queued job that fails without running keeps the invariant. */
  lemma FailKeepsState(jobs: map<string, Job>, running: map<string, Handler>, counter: nat, id: string, j: Job)
    requires QueueState(jobs, running, counter) && id in jobs && jobs[id].status == Queued
    requires j.id == id && Shape(j) && j.status == Failed
    ensures QueueState(jobs[id := j], running, counter)
  {
    ReplaceKeepsNumbered(jobs, counter, id, j);
  }

  /** A queued job that starts, with its handler recorded as running, keeps the invariant. */
  lemma StartKeepsState(jobs: map<string, Job>, running: map<string, Handler>, counter: nat, id: string, j: Job, h: Handler)
    requires QueueState(jobs, running, counter) && id in jobs
    requires j.id == id && Shape(j) && j.status == Processing
    ensures QueueState(jobs[id := j], running[id := h], counter)
  {
    ReplaceKeepsNumbered(jobs, counter, id, j);
  }

  /** A running job that settles and leaves the running set keeps the invariant. */
  lemma SettleKeepsState(jobs: map<string, Job>, running: map<string, Handler>, counter: nat, id: string, j: Job)
    requires QueueState(jobs, running, counter) && id in running
    requires j.id == id && Shape(j) && j.status != Processing
    ensures QueueState(jobs[id := j], running - {id}, counter)
  {
    ReplaceKeepsNumbered(jobs, counter, id, j);
  }

  /** `JobQueue`. */
  class JobQueue {
    const name: string
    var jobs: map<string, Job>
    var processors: map<string, Handler>
    var jobCounter: nat
    /** The jobs whose handler has been called and not yet settled, with that handler. */
    var running: map<string, Handler>
    var events: seq<Event>

    /**
     * Every job is stored under its id, which carries a counter value the
     * queue has already used; each job has the fields its status calls for;
     * the processing jobs are exactly the running ones.
     */
    ghost predicate Valid()
      reads this
    {
      QueueState(jobs, running, jobCounter)
    }

    constructor(name: string)
      ensures Valid() && this.name == name
      ensures jobs == map[] && processors == map[] && jobCounter == 0 && running == map[] && events == []
    {
      this.name := name;
      jobs := map[];
      processors := map[];
      jobCounter := 0;
      running := map[];
      events := [];
    }

    /** `process(type, handler)`: the latest registration for a type wins. */
    method Process(jobType: string, handler: Handler)
      requires Valid()
      modifies this
      ensures Valid()
      ensures processors == old(processors)[jobType := handler]
      ensures jobs == old(jobs) && jobCounter == old(jobCounter) && running == old(running) && events == old(events)
    {
      processors := processors[jobType := handler];
    }

    /**
     * `add(type, data, options)`: a queued job under a fresh id; its dispatch
     * is deferred, so no handler runs here.
     */
    method Add(jobType: string, data: Value, now: nat, options: Value := EmptyObject)
      returns (id: string, addedType: string)
      requires Valid()
      modifies this
      ensures Valid()
      ensures jobCounter == old(jobCounter) + 1 && id == JobId(jobCounter, now) && addedType == jobType
      ensures id !in old(jobs)
      ensures jobs == old(jobs)[id := Job(id, jobType, data, Queued, now, options, None, None, None)]
      ensures events == old(events) + [Event(JobAdded, jobs[id])]
      ensures processors == old(processors) && running == old(running)
    {
      jobCounter := jobCounter + 1;
      id := JobId(jobCounter, now);
      JobIdEmbedsCounter(jobCounter, now);
      var job := Job(id, jobType, data, Queued, now, options, None, None, None);
      jobs := jobs[id := job];
      events := events + [Event(JobAdded, job)];
      addedType := jobType;
    }

    /**
     * The deferred `_processJob(id)`, up to the point where it awaits the
     * handler. Each deferred callback fires once, for a job `add` left
     * queued; an id the queue does not know is ignored.
     */
    method Dispatch(id: string)
      requires Valid()
      requires id in jobs ==> jobs[id].status == Queued
      modifies this
      ensures Valid()
      ensures processors == old(processors) && jobCounter == old(jobCounter)
      ensures id !in old(jobs) ==> jobs == old(jobs) && running == old(running) && events == old(events)
      ensures id in old(jobs) && old(jobs)[id].jobType !in processors ==>
        jobs == old(jobs)[id := NoProcessor(old(jobs)[id])] && running == old(running)
        && events == old(events) + [Event(JobFailed, jobs[id])]
      ensures id in old(jobs) && old(jobs)[id].jobType in processors ==>
        jobs == old(jobs)[id := Started(old(jobs)[id])]
        && running == old(running)[id := processors[old(jobs)[id].jobType]]
        && events == old(events) + [Event(JobProcessing, jobs[id])]
    {
      if id in jobs {
        var job := jobs[id];
        if job.jobType !in processors {
          var failed := NoProcessor(job);
          NoProcessorStep(job);
          FailKeepsState(jobs, running, jobCounter, id, failed);
          jobs := jobs[id := failed];
          events := events + [Event(JobFailed, failed)];
        } else {
          var started := Started(job);
          StartedStep(job);
          var handler := processors[job.jobType];
          StartKeepsState(jobs, running, jobCounter, id, started, handler);
          jobs := jobs[id := started];
          running := running[id := handler];
          events := events + [Event(JobProcessing, started)];
          assert jobs[id] == started;
        }
      }
    }

    /** The rest of `_processJob(id)` once the awaited handler has settled with `outcome`. */
    method Complete(id: string, outcome: Outcome, now: nat)
      requires Valid() && id in running
      modifies this
      ensures Valid()
      ensures processors == old(processors) && jobCounter == old(jobCounter)
      ensures jobs == old(jobs)[id := Finished(old(jobs)[id], outcome, now)]
      ensures running == old(running) - {id}
      ensures events == old(events) + [Event(if outcome.Success? then JobCompleted else JobFailed, jobs[id])]
    {
      var done := Finished(jobs[id], outcome, now);
      FinishedStep(jobs[id], outcome, now);
      SettleKeepsState(jobs, running, jobCounter, id, done);
      jobs := jobs[id := done];
      running := running - {id};
      events := events + [Event(if outcome.Success? then JobCompleted else JobFailed, done)];
    }

    /** `getJob(id)`: the stored job, or nothing for an unknown id. */
    function GetJob(id: string): (r: Option<Job>)
      reads this
      ensures r.Some? <==> id in jobs
      ensures r.Some? ==> r.value == jobs[id]
    {
      if id in jobs then Some(jobs[id]) else None
    }
  }
}
