/**
 * The jobs store: the listed jobs, the job being viewed, paging and the
 * `loading`/`error` flags, with every reducer case of the jobs slice.
 */
module JobsSlice {
  import opened Common
  import ListOps

  /** A job posting; `details` stands for every field other than `id`. */
  datatype Job = Job(id: Id, details: map<string, string>)

  datatype Request = FetchJobs | FetchJobById | CreateJob | UpdateJob | DeleteJob

  /** The fixed text each rejected case falls back to. */
  function Fallback(req: Request): (r: string)
    ensures |r| > 0
  {
    match req
    case FetchJobs => "Failed to fetch jobs"
    case FetchJobById => "Failed to fetch job"
    case CreateJob => "Failed to create job"
    case UpdateJob => "Failed to update job"
    case DeleteJob => "Failed to delete job"
  }
  /** No two requests share a fallback text, so a stored error names the request that failed. */
  lemma FallbackIdentifiesRequest(a: Request, b: Request)
    ensures Fallback(a) == Fallback(b) ==> a == b
  {
  }


  /** `jobs.findIndex(job => job.id === id)` */
  function JobIndex(jobs: seq<Job>, id: Id): (r: int)
    ensures -1 <= r < |jobs|
    ensures r == -1 <==> forall k :: 0 <= k < |jobs| ==> jobs[k].id != id
    ensures 0 <= r ==> jobs[r].id == id && forall k :: 0 <= k < r ==> jobs[k].id != id
  {
    ListOps.FindIndex(jobs, (j: Job) => j.id == id)
  }

  /** `updateJob.fulfilled` on the list: the first job with the same id is replaced. */
  function ReplaceJob(jobs: seq<Job>, job: Job): (r: seq<Job>)
    ensures |r| == |jobs|
    ensures JobIndex(jobs, job.id) == -1 ==> r == jobs
    ensures 0 <= JobIndex(jobs, job.id) ==> r[JobIndex(jobs, job.id)] == job
    ensures forall k :: 0 <= k < |jobs| && k != JobIndex(jobs, job.id) ==> r[k] == jobs[k]
  {
    ListOps.UpdateFirst(jobs, (j: Job) => j.id == job.id, (j: Job) => job)
  }

  /** `deleteJob.fulfilled`: `jobs.filter(job => job.id !== jobId)`. */
  function WithoutJob(jobs: seq<Job>, jobId: Id): (r: seq<Job>)
    ensures |r| <= |jobs|
    ensures forall k :: 0 <= k < |r| ==> r[k] in jobs && r[k].id != jobId
    ensures forall k :: 0 <= k < |jobs| && jobs[k].id != jobId ==> jobs[k] in r
  {
    ListOps.Filter(jobs, (j: Job) => j.id != jobId)
  }

  /** Deleting keeps the remaining jobs in their order: it works piecewise on any split of the list. */
  lemma DeleteKeepsOrder(a: seq<Job>, b: seq<Job>, jobId: Id)
    ensures WithoutJob(a + b, jobId) == WithoutJob(a, jobId) + WithoutJob(b, jobId)
  {
    ListOps.FilterAppend(a, b, (j: Job) => j.id != jobId);
  }

  /** Deleting an id no job carries changes nothing; deleting twice is deleting once. */
  lemma DeleteAbsentAndTwice(jobs: seq<Job>, jobId: Id)
    ensures (forall k :: 0 <= k < |jobs| ==> jobs[k].id != jobId) ==> WithoutJob(jobs, jobId) == jobs
    ensures WithoutJob(WithoutJob(jobs, jobId), jobId) == WithoutJob(jobs, jobId)
  {
    ListOps.FilterAllOrNone(jobs, (j: Job) => j.id != jobId);
    ListOps.FilterIdempotent(jobs, (j: Job) => j.id != jobId);
  }

  /** Replacing a job by itself again after an update changes nothing more. */
  lemma ReplaceIdempotent(jobs: seq<Job>, job: Job)
    ensures ReplaceJob(ReplaceJob(jobs, job), job) == ReplaceJob(jobs, job)
  {
    var once := ReplaceJob(jobs, job);
    var i := JobIndex(jobs, job.id);
    if i != -1 {
      assert JobIndex(once, job.id) == i;
    }
  }

  datatype JobsState = JobsState(
    jobs: seq<Job>,
    currentJob: Option<Job>,
    loading: bool,
    error: Option<string>,
    totalPages: int,
    currentPage: int)

  /** The jobs slice; each method is one reducer case and updates the fields in place. */
  class JobsStore {
    var jobs: seq<Job>
    var currentJob: Option<Job>
    var loading: bool
    var error: Option<string>
    var totalPages: int
    var currentPage: int

    function State(): JobsState
      reads this
    {
      JobsState(jobs, currentJob, loading, error, totalPages, currentPage)
    }

    /** `initialState` */
    constructor ()
      ensures State() == JobsState([], None, false, None, 0, 0)
    {
      jobs := [];
      currentJob := None;
      loading := false;
      error := None;
      totalPages := 0;
      currentPage := 0;
    }

    method ClearJobError()
      modifies this
      ensures State() == old(State()).(error := None)
    {
      error := None;
    }

    method ClearCurrentJob()
      modifies this
      ensures State() == old(State()).(currentJob := None)
    {
      currentJob := None;
    }

    /** The pending case of every request is the same: start loading, forget the old error. */
    method Pending()
      modifies this
      ensures State() == old(State()).(loading := true, error := None)
    {
      loading := true;
      error := None;
    }

    /** The rejected case of every request: stop loading and record the error. */
    method Rejected(req: Request, payload: Option<ErrorPayload>)
      modifies this
      ensures error == RejectedError(payload, Fallback(req))
      ensures State() == old(State()).(loading := false, error := error)
    {
      loading := false;
      error := RejectedError(payload, Fallback(req));
    }

    /** The fetched page replaces the list and the paging fields. */
    method FetchJobsFulfilled(page: Page<Job>)
      modifies this
      ensures State() == old(State()).(loading := false, jobs := page.content,
                                       totalPages := page.totalPages, currentPage := page.number)
    {
      loading := false;
      jobs := page.content;
      totalPages := page.totalPages;
      currentPage := page.number;
    }

    method FetchJobByIdFulfilled(job: Job)
      modifies this
      ensures State() == old(State()).(loading := false, currentJob := Some(job))
    {
      loading := false;
      currentJob := Some(job);
    }

    /** A created job goes to the front; the earlier jobs follow in their order. */
    method CreateJobFulfilled(job: Job)
      modifies this
      ensures |jobs| == |old(jobs)| + 1 && jobs[0] == job && jobs[1..] == old(jobs)
      ensures State() == old(State()).(loading := false, jobs := jobs)
    {
      loading := false;
      jobs := [job] + jobs;
    }

    /** The updated job becomes current and replaces its listed copy, if any. */
    method UpdateJobFulfilled(job: Job)
      modifies this
      ensures jobs == ReplaceJob(old(jobs), job)
      ensures State() == old(State()).(loading := false, currentJob := Some(job), jobs := jobs)
    {
      loading := false;
      currentJob := Some(job);
      jobs := ReplaceJob(jobs, job);
    }

    /** Every job with the deleted id leaves the list. */
    method DeleteJobFulfilled(jobId: Id)
      modifies this
      ensures jobs == WithoutJob(old(jobs), jobId)
      ensures State() == old(State()).(loading := false, jobs := jobs)
    {
      loading := false;
      jobs := WithoutJob(jobs, jobId);
    }
  }
}
