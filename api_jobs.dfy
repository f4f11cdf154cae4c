/**
 * The batch-docking job registry of the REST API (zeropain/api/main.py):
 * the active_jobs and completed_jobs dicts, the steps of the background
 * docking task that update them, and the two job endpoints. The job id
 * (uuid4), the timestamps and the docking results are parameters; the background job
 * runs its steps one after the other.
 */
module JobRegistry {
  import opened Wrappers
  import opened OrderedDict
  import opened Json
  import opened Text
  import opened ApiAuth

  /** A job's entry: status, progress, the count of compounds and of results, the results, the timestamps and the error. */
  datatype JobRecord = JobRecord(
    status: string, progress: real, total: int, completed: int, results: seq<Json>, createdAt: string,
    updatedAt: string, error: Option<string>)

  type Jobs = Dict<string, JobRecord>

  /** active_jobs and completed_jobs. */
  datatype Registry = Registry(active: Jobs, completed: Jobs)

  /**
   * The entry batch_dock registers for a request of total compounds; its two
   * timestamps come from two separate clock readings.
   */
  function PendingJob(total: nat, created: string, updated: string): JobRecord
  {
    JobRecord("pending", 0.0, total, 0, [], created, updated, None)
  }

  datatype BatchResponse = BatchResponse(jobId: string, status: string, message: string, statusUrl: string)

  /** The answer of batch_dock. */
  function BatchResponseOf(jobId: string, total: nat): (b: BatchResponse)
    ensures b.status == "pending" && b.jobId == jobId
    ensures b.statusUrl == "/api/jobs/" + jobId
  {
    BatchResponse(jobId, "pending", "Batch docking initiated for " + NatToString(total) + " compounds", "/api/jobs/" + jobId)
  }

  /** batch_dock: a pending entry under the new id; completed jobs are untouched. */
  function Registered(reg: Registry, jobId: string, total: nat, created: string, updated: string): (r: Registry)
    ensures Get(r.active, jobId) == Some(PendingJob(total, created, updated)) && r.completed == reg.completed
    ensures forall j :: j != jobId ==> Get(r.active, j) == Get(reg.active, j)
  {
    forall j ensures Get(Set(reg.active, jobId, PendingJob(total, created, updated)), j) ==
      if j == jobId then Some(PendingJob(total, created, updated)) else Get(reg.active, j)
    {
      SetGet(reg.active, jobId, PendingJob(total, created, updated), j);
    }
    Registry(Set(reg.active, jobId, PendingJob(total, created, updated)), reg.completed)
  }

  /**
   * The background job's first step: the job is running. An id that is no longer
   * active raises KeyError, and the handler's own assignment raises again,
   * so nothing changes.
   */
  function Started(reg: Registry, jobId: string, now: string): (r: Registry)
    ensures Get(reg.active, jobId).None? ==> r == reg
    ensures Get(reg.active, jobId).Some? ==> Get(r.active, jobId) == Some(Get(reg.active, jobId).value.(status := "running", updatedAt := now))
    ensures forall j :: j != jobId ==> Get(r.active, j) == Get(reg.active, j)
    ensures r.completed == reg.completed && Keys(r.active) == Keys(reg.active)
  {
    match Get(reg.active, jobId)
    case None => reg
    case Some(job) =>
      var job' := job.(status := "running", updatedAt := now);
      SetKeys(reg.active, jobId, job');
      GetSomeIffKey(reg.active, jobId);
      forall j ensures Get(Set(reg.active, jobId, job'), j) == if j == jobId then Some(job') else Get(reg.active, j) {
        SetGet(reg.active, jobId, job', j);
      }
      Registry(Set(reg.active, jobId, job'), reg.completed)
  }

  /** The entry of a job that finished with the given results. */
  function CompletedJob(job: JobRecord, results: seq<Json>, now: string): JobRecord
  {
    job.(results := results, status := "completed", progress := 1.0, completed := |results|, updatedAt := now)
  }

  /** On success: the results are recorded and the entry moves from active_jobs to completed_jobs. */
  function Completed(reg: Registry, jobId: string, results: seq<Json>, now: string): (r: Registry)
    ensures Get(reg.active, jobId).None? ==> r == reg
    ensures Get(reg.active, jobId).Some? ==>
      Get(r.completed, jobId) == Some(CompletedJob(Get(reg.active, jobId).value, results, now)) &&
      Get(r.active, jobId).None?
    ensures forall j :: j != jobId ==> Get(r.active, j) == Get(reg.active, j) && Get(r.completed, j) == Get(reg.completed, j)
  {
    match Get(reg.active, jobId)
    case None => reg
    case Some(job) =>
      var done := CompletedJob(job, results, now);
      forall j ensures Get(Set(reg.completed, jobId, done), j) == (if j == jobId then Some(done) else Get(reg.completed, j))
        && Get(Remove(reg.active, jobId), j) == (if j == jobId then None else Get(reg.active, j))
      {
        SetGet(reg.completed, jobId, done, j);
        RemoveGet(reg.active, jobId, j);
      }
      Registry(Remove(reg.active, jobId), Set(reg.completed, jobId, done))
  }

  /** On failure: the entry stays in active_jobs, marked failed with the error text. */
  function Failed(reg: Registry, jobId: string, error: string, now: string): (r: Registry)
    ensures Get(reg.active, jobId).None? ==> r == reg
    ensures Get(reg.active, jobId).Some? ==>
      Get(r.active, jobId) == Some(Get(reg.active, jobId).value.(status := "failed", error := Some(error), updatedAt := now))
    ensures forall j :: j != jobId ==> Get(r.active, j) == Get(reg.active, j)
    ensures r.completed == reg.completed && Keys(r.active) == Keys(reg.active)
  {
    match Get(reg.active, jobId)
    case None => reg
    case Some(job) =>
      var job' := job.(status := "failed", error := Some(error), updatedAt := now);
      SetKeys(reg.active, jobId, job');
      GetSomeIffKey(reg.active, jobId);
      forall j ensures Get(Set(reg.active, jobId, job'), j) == if j == jobId then Some(job') else Get(reg.active, j) {
        SetGet(reg.active, jobId, job', j);
      }
      Registry(Set(reg.active, jobId, job'), reg.completed)
  }

  /** get_job_status: the active entry first, then the completed one, else 404. */
  function JobStatus(reg: Registry, jobId: string): (r: Result<JobRecord, HttpError>)
    ensures r.Err? <==> !HasKey(reg.active, jobId) && !HasKey(reg.completed, jobId)
    ensures r.Err? ==> r.error == HttpError(NotFound, "Job not found")
    ensures Get(reg.active, jobId).Some? ==> r == Ok(Get(reg.active, jobId).value)
    ensures Get(reg.active, jobId).None? && Get(reg.completed, jobId).Some? ==> r == Ok(Get(reg.completed, jobId).value)
  {
    GetSomeIffKey(reg.active, jobId);
    GetSomeIffKey(reg.completed, jobId);
    match Get(reg.active, jobId)
    case Some(job) => Ok(job)
    case None =>
      match Get(reg.completed, jobId)
      case Some(job) => Ok(job)
      case None => Err(HttpError(NotFound, "Job not found"))
  }

  datatype JobList = JobList(active: seq<string>, completed: seq<string>, totalActive: nat, totalCompleted: nat)

  /** list_jobs */
  function ListJobs(reg: Registry): (l: JobList)
    ensures l.totalActive == |l.active| == Size(reg.active) && l.totalCompleted == |l.completed| == Size(reg.completed)
    ensures forall j :: j in l.active <==> HasKey(reg.active, j)
    ensures forall j :: j in l.completed <==> HasKey(reg.completed, j)
  {
    JobList(Keys(reg.active), Keys(reg.completed), Size(reg.active), Size(reg.completed))
  }

  /**
   * The listing follows the dicts' insertion order: a newly registered job is
   * listed last among the active ones, and a completed job leaves the active
   * listing, the others keeping their order, and is listed last among the completed.
   */
  lemma ListingOrder(reg: Registry, jobId: string, total: nat, results: seq<Json>, created: string, now: string)
    ensures !HasKey(reg.active, jobId) ==>
      ListJobs(Registered(reg, jobId, total, created, now)).active == ListJobs(reg).active + [jobId]
    ensures HasKey(reg.active, jobId) && !HasKey(reg.completed, jobId) ==>
      var l := ListJobs(Completed(reg, jobId, results, now));
      l.active == KeysNotIn(ListJobs(reg).active, [jobId]) && l.completed == ListJobs(reg).completed + [jobId]
  {
    SetKeys(reg.active, jobId, PendingJob(total, created, now));
    GetSomeIffKey(reg.active, jobId);
    match Get(reg.active, jobId)
    case None =>
    case Some(job) =>
      RemoveKeysOrder(reg.active, jobId);
      SetKeys(reg.completed, jobId, CompletedJob(job, results, now));
  }

  /** No id is both active and completed, and both dicts are well formed. */
  ghost predicate Disjoint(reg: Registry)
  {
    Wf(reg.active) && Wf(reg.completed) && forall j :: !(HasKey(reg.active, j) && HasKey(reg.completed, j))
  }

  /**
   * Registering a fresh id and every step of the background job keep the two dicts
   * apart, and a completed job leaves active_jobs for completed_jobs
   * without changing the total number of jobs.
   */
  lemma StepsKeepDisjoint(reg: Registry, jobId: string, total: nat, results: seq<Json>, error: string,
                          created: string, now: string)
    requires Disjoint(reg)
    ensures !HasKey(reg.completed, jobId) ==> Disjoint(Registered(reg, jobId, total, created, now))
    ensures Disjoint(Started(reg, jobId, now)) && Disjoint(Failed(reg, jobId, error, now))
    ensures Disjoint(Completed(reg, jobId, results, now))
    ensures var r := Completed(reg, jobId, results, now);
      Size(r.active) + Size(r.completed) == Size(reg.active) + Size(reg.completed)
    ensures !HasKey(reg.active, jobId) && !HasKey(reg.completed, jobId) ==>
      var r := Registered(reg, jobId, total, created, now);
      Size(r.active) + Size(r.completed) == Size(reg.active) + Size(reg.completed) + 1
  {
    var p := PendingJob(total, created, now);
    SetWf(reg.active, jobId, p);
    SetSize(reg.active, jobId, p);
    forall j ensures HasKey(Set(reg.active, jobId, p), j) <==> HasKey(reg.active, j) || j == jobId {
      SetGet(reg.active, jobId, p, j);
      GetSomeIffKey(Set(reg.active, jobId, p), j);
      GetSomeIffKey(reg.active, j);
    }
    GetSomeIffKey(reg.active, jobId);
    match Get(reg.active, jobId)
    case None =>
    case Some(job) =>
      var run := job.(status := "running", updatedAt := now);
      var failed := job.(status := "failed", error := Some(error), updatedAt := now);
      var done := CompletedJob(job, results, now);
      SetWf(reg.active, jobId, run);
      SetWf(reg.active, jobId, failed);
      SetWf(reg.completed, jobId, done);
      RemoveWf(reg.active, jobId);
      RemoveKeys(reg.active, jobId);
      RemoveSize(reg.active, jobId);
      SetSize(reg.completed, jobId, done);
      forall j ensures HasKey(Set(reg.completed, jobId, done), j) <==> HasKey(reg.completed, j) || j == jobId {
        SetGet(reg.completed, jobId, done, j);
        GetSomeIffKey(Set(reg.completed, jobId, done), j);
        GetSomeIffKey(reg.completed, j);
      }
  }

  /**
   * A job that runs to the end is reported from completed_jobs as completed,
   * with progress 1.0 and one result per docked compound; one that fails is
   * reported from active_jobs as failed with its error.
   */
  lemma Lifecycle(reg: Registry, jobId: string, total: nat, results: seq<Json>, error: string,
                  t0: string, t0': string, t1: string, t2: string)
    ensures var r := Completed(Started(Registered(reg, jobId, total, t0, t0'), jobId, t1), jobId, results, t2);
      JobStatus(r, jobId) == Ok(JobRecord("completed", 1.0, total, |results|, results, t0, t2, None)) &&
      !HasKey(r.active, jobId)
    ensures var r := Failed(Started(Registered(reg, jobId, total, t0, t0'), jobId, t1), jobId, error, t2);
      JobStatus(r, jobId) == Ok(JobRecord("failed", 0.0, total, 0, [], t0, t2, Some(error)))
  {
    var r := Completed(Started(Registered(reg, jobId, total, t0, t0'), jobId, t1), jobId, results, t2);
    GetSomeIffKey(r.active, jobId);
    GetSomeIffKey(r.completed, jobId);
    var f := Failed(Started(Registered(reg, jobId, total, t0, t0'), jobId, t1), jobId, error, t2);
    GetSomeIffKey(f.active, jobId);
  }

  /** The two module-level job dicts and the steps that update them. */
  class JobStore {
    var active: Jobs
    var completed: Jobs

    function State(): Registry
      reads this
    {
      Registry(active, completed)
    }

    constructor()
      ensures active == Empty() && completed == Empty()
    {
      active := Empty();
      completed := Empty();
    }

    /** batch_dock: registers the job and answers with its id and status URL. */
    method BatchDock(jobId: string, total: nat, created: string, updated: string) returns (response: BatchResponse)
      modifies this
      ensures State() == Registered(old(State()), jobId, total, created, updated)
      ensures response == BatchResponseOf(jobId, total)
    {
      active := Set(active, jobId, PendingJob(total, created, updated));
      response := BatchResponse(jobId, "pending", "Batch docking initiated for " + NatToString(total) + " compounds",
                                "/api/jobs/" + jobId);
    }

    /** active_jobs[job_id]["status"] = "running" */
    method Start(jobId: string, now: string)
      modifies this
      ensures State() == Started(old(State()), jobId, now)
    {
      var job := Get(active, jobId);
      if job.Some? {
        active := Set(active, jobId, job.value.(status := "running", updatedAt := now));
      }
    }

    /** Stores the results and moves the job to completed_jobs. */
    method Complete(jobId: string, results: seq<Json>, now: string)
      modifies this
      ensures State() == Completed(old(State()), jobId, results, now)
    {
      var job := Get(active, jobId);
      if job.Some? {
        var done := job.value.(results := results, status := "completed", progress := 1.0, completed := |results|,
                               updatedAt := now);
        active := Remove(active, jobId);
        completed := Set(completed, jobId, done);
      }
    }

    /** The background job's except branch. */
    method Fail(jobId: string, error: string, now: string)
      modifies this
      ensures State() == Failed(old(State()), jobId, error, now)
    {
      var job := Get(active, jobId);
      if job.Some? {
        active := Set(active, jobId, job.value.(status := "failed", error := Some(error), updatedAt := now));
      }
    }

    /**
     * run_batch_docking: start, then either record the results or, when the
     * docking raised, the error.
     */
    method RunBatchDocking(jobId: string, outcome: Result<seq<Json>, string>, started: string, finished: string)
      modifies this
      ensures outcome.Ok? ==> State() == Completed(Started(old(State()), jobId, started), jobId, outcome.value, finished)
      ensures outcome.Err? ==> State() == Failed(Started(old(State()), jobId, started), jobId, outcome.error, finished)
    {
      Start(jobId, started);
      if outcome.Ok? {
        Complete(jobId, outcome.value, finished);
      } else {
        Fail(jobId, outcome.error, finished);
      }
    }
  }
}
