/** The cleaning-job store: an ordered list of jobs with a selection and the
    `loading`/`error` flags, its status and foreign-key getters, and its
    actions. Every backend call of the original is a stub, so each action is
    a synchronous update; the fresh UUID and the clock are parameters. */
module CleaningJobs {
  import opened Options
  import opened Seqs
  import opened Entities

  datatype JobStatus = Scheduled | InProgress | Completed | Cancelled | Rescheduled
  datatype JobType = Regular | Turnover | DeepClean | Special

  /** The denormalised snapshot of the assigned staff member. */
  datatype Assignee = Assignee(userId: string, name: string, email: string, phone: string)
  /** Start and end timestamps and the length in minutes. */
  datatype Schedule = Schedule(start: int, end: int, duration: int)
  datatype Details = Details(
    notes: seq<string>,
    suppliesNeeded: seq<string>,
    specialInstructions: seq<string>,
    checkInTime: Option<string>,
    checkOutTime: Option<string>)
  datatype Completion = Completion(
    completed: bool,
    completedAt: Option<int>,
    completedBy: Option<string>,
    notes: Option<string>,
    issues: Option<seq<string>>)

  /** A cleaning job apart from its id and timestamps. */
  datatype JobData = JobData(
    propertyId: string,
    assignedTo: Assignee,
    schedule: Schedule,
    kind: JobType,
    status: JobStatus,
    details: Details,
    completion: Completion)

  type Job = Record<JobData>

  /** `Partial<CleaningJob>` without the shared fields: `None` is a missing key. */
  datatype JobUpdates = JobUpdates(
    propertyId: Option<string>,
    assignedTo: Option<Assignee>,
    schedule: Option<Schedule>,
    kind: Option<JobType>,
    status: Option<JobStatus>,
    details: Option<Details>,
    completion: Option<Completion>)

  type JobPatch = Patch<JobUpdates>

  /** `Partial<CleaningJob['completion']>`: `None` is a missing key. */
  datatype CompletionUpdates = CompletionUpdates(
    completed: Option<bool>,
    completedAt: Option<int>,
    completedBy: Option<string>,
    notes: Option<string>,
    issues: Option<seq<string>>)

  const NoJobUpdates := JobUpdates(None, None, None, None, None, None, None)

  // ---------------------------------------------------------------- getters

  /** `jobs.filter(job => job.status === status)`: the getters scheduledJobs,
      inProgressJobs, completedJobs, cancelledJobs and rescheduledJobs are
      this function at the five statuses. */
  function JobsWithStatus(jobs: seq<Job>, status: JobStatus): (r: seq<Job>)
    ensures forall j :: j in r <==> j in jobs && j.data.status == status
    ensures |r| <= |jobs|
  {
    Filter(jobs, (j: Job) => j.data.status == status)
  }

  /** getJobsByProperty: the jobs of one property, in list order. */
  function JobsByProperty(jobs: seq<Job>, propertyId: string): (r: seq<Job>)
    ensures forall j :: j in r <==> j in jobs && j.data.propertyId == propertyId
    ensures |r| <= |jobs|
  {
    Filter(jobs, (j: Job) => j.data.propertyId == propertyId)
  }

  /** getJobsByStaff: the jobs assigned to one user, in list order. */
  function JobsByStaff(jobs: seq<Job>, userId: string): (r: seq<Job>)
    ensures forall j :: j in r <==> j in jobs && j.data.assignedTo.userId == userId
    ensures |r| <= |jobs|
  {
    Filter(jobs, (j: Job) => j.data.assignedTo.userId == userId)
  }

  /** The job getters keep list order, and each holds every occurrence of a
      matching job and nothing else: together with the membership in their
      contracts, this pins each getter's result down exactly. */
  lemma JobGettersKeepOrder(jobs: seq<Job>, status: JobStatus, propertyId: string, userId: string)
    ensures IsSubsequence(JobsWithStatus(jobs, status), jobs)
    ensures IsSubsequence(JobsByProperty(jobs, propertyId), jobs)
    ensures IsSubsequence(JobsByStaff(jobs, userId), jobs)
    ensures forall j :: multiset(JobsWithStatus(jobs, status))[j]
                     == if j.data.status == status then multiset(jobs)[j] else 0
    ensures forall j :: multiset(JobsByProperty(jobs, propertyId))[j]
                     == if j.data.propertyId == propertyId then multiset(jobs)[j] else 0
    ensures forall j :: multiset(JobsByStaff(jobs, userId))[j]
                     == if j.data.assignedTo.userId == userId then multiset(jobs)[j] else 0
  {
    var ps := (j: Job) => j.data.status == status;
    var pp := (j: Job) => j.data.propertyId == propertyId;
    var pu := (j: Job) => j.data.assignedTo.userId == userId;
    FilterIsSubsequence(jobs, ps);
    FilterIsSubsequence(jobs, pp);
    FilterIsSubsequence(jobs, pu);
    forall j: Job ensures multiset(JobsWithStatus(jobs, status))[j]
                       == if j.data.status == status then multiset(jobs)[j] else 0 {
      FilterCounts(jobs, ps, j);
    }
    forall j: Job ensures multiset(JobsByProperty(jobs, propertyId))[j]
                       == if j.data.propertyId == propertyId then multiset(jobs)[j] else 0 {
      FilterCounts(jobs, pp, j);
    }
    forall j: Job ensures multiset(JobsByStaff(jobs, userId))[j]
                       == if j.data.assignedTo.userId == userId then multiset(jobs)[j] else 0 {
      FilterCounts(jobs, pu, j);
    }
  }

  /** The part the first job contributes to the getter of one status. */
  function HeadPart(j: Job, status: JobStatus): multiset<Job> {
    if j.data.status == status then multiset{j} else multiset{}
  }

  lemma JobsWithStatusCons(jobs: seq<Job>, status: JobStatus)
    requires jobs != []
    ensures multiset(JobsWithStatus(jobs, status)) == HeadPart(jobs[0], status) + multiset(JobsWithStatus(jobs[1..], status))
  {
    assert JobsWithStatus(jobs, status)
        == (if jobs[0].data.status == status then [jobs[0]] else []) + JobsWithStatus(jobs[1..], status);
  }

  lemma HeadPartsSum(j: Job)
    ensures HeadPart(j, Scheduled) + HeadPart(j, InProgress) + HeadPart(j, Completed)
          + HeadPart(j, Cancelled) + HeadPart(j, Rescheduled) == multiset{j}
  {
  }

  /** The five status getters split the job list: every job is in exactly the
      getter of its status, so together they hold each job exactly once. */
  lemma {:induction false} StatusGettersPartition(jobs: seq<Job>)
    ensures multiset(JobsWithStatus(jobs, Scheduled)) + multiset(JobsWithStatus(jobs, InProgress))
          + multiset(JobsWithStatus(jobs, Completed)) + multiset(JobsWithStatus(jobs, Cancelled))
          + multiset(JobsWithStatus(jobs, Rescheduled)) == multiset(jobs)
  {
    if jobs != [] {
      var j, rest := jobs[0], jobs[1..];
      StatusGettersPartition(rest);
      JobsWithStatusCons(jobs, Scheduled);
      JobsWithStatusCons(jobs, InProgress);
      JobsWithStatusCons(jobs, Completed);
      JobsWithStatusCons(jobs, Cancelled);
      JobsWithStatusCons(jobs, Rescheduled);
      HeadPartsSum(j);
      MultisetCons(jobs);
      MultisetRegroup(HeadPart(j, Scheduled), HeadPart(j, InProgress), HeadPart(j, Completed),
        HeadPart(j, Cancelled), HeadPart(j, Rescheduled),
        multiset(JobsWithStatus(rest, Scheduled)), multiset(JobsWithStatus(rest, InProgress)),
        multiset(JobsWithStatus(rest, Completed)), multiset(JobsWithStatus(rest, Cancelled)),
        multiset(JobsWithStatus(rest, Rescheduled)));
    }
  }

  lemma MultisetRegroup<T>(h1: multiset<T>, h2: multiset<T>, h3: multiset<T>, h4: multiset<T>, h5: multiset<T>,
                           a: multiset<T>, b: multiset<T>, c: multiset<T>, d: multiset<T>, e: multiset<T>)
    ensures (h1 + a) + (h2 + b) + (h3 + c) + (h4 + d) + (h5 + e) == (h1 + h2 + h3 + h4 + h5) + (a + b + c + d + e)
  {
  }

  // ---------------------------------------------------------------- updates

  /** `{...job, ...updates, updatedAt: now}`: every key present in the update
      replaces the job's field, `updatedAt` is refreshed. */
  function MergeJob(job: Job, patch: JobPatch, now: int): Job {
    var u := patch.data;
    var d := job.data;
    Merge(job, patch, JobData(
      u.propertyId.GetOr(d.propertyId),
      u.assignedTo.GetOr(d.assignedTo),
      u.schedule.GetOr(d.schedule),
      u.kind.GetOr(d.kind),
      u.status.GetOr(d.status),
      u.details.GetOr(d.details),
      u.completion.GetOr(d.completion)), now)
  }

  /** The update that supplies the one field `status`. */
  function StatusOnly(status: JobStatus): JobPatch {
    Patch(None, None, None, NoJobUpdates.(status := Some(status)))
  }

  /** An update that names only `status` changes exactly `status` and
      `updatedAt`; an empty update changes only `updatedAt`. */
  lemma MergeJobChangesOnlyNamedFields(job: Job, status: JobStatus, now: int)
    ensures MergeJob(job, StatusOnly(status), now)
         == job.(updatedAt := now, data := job.data.(status := status))
    ensures MergeJob(job, Patch(None, None, None, NoJobUpdates), now) == job.(updatedAt := now)
  {
  }

  /** Applying the same update twice is applying it once. */
  lemma MergeJobIdempotent(job: Job, patch: JobPatch, now: int)
    ensures MergeJob(MergeJob(job, patch, now), patch, now) == MergeJob(job, patch, now)
  {
  }

  /** `completeJob`'s replacement record: status `completed`, the completion
      details merged over the old completion, then `completed = true` and
      `completedAt = now` whatever the details said. */
  function CompleteRecord(job: Job, details: CompletionUpdates, now: int): (r: Job)
    ensures r.data.status == Completed
    ensures r.data.completion.completed && r.data.completion.completedAt == Some(now)
    ensures r.data.completion.completedBy == details.completedBy.OrElse(job.data.completion.completedBy)
    ensures r.data.completion.notes == details.notes.OrElse(job.data.completion.notes)
    ensures r.data.completion.issues == details.issues.OrElse(job.data.completion.issues)
    ensures r.data == job.data.(status := Completed, completion := r.data.completion)
    ensures r.id == job.id && r.createdAt == job.createdAt && r.updatedAt == now
  {
    var c := job.data.completion;
    job.(data := job.data.(
           status := Completed,
           completion := Completion(
             true,
             Some(now),
             details.completedBy.OrElse(c.completedBy),
             details.notes.OrElse(c.notes),
             details.issues.OrElse(c.issues))),
         updatedAt := now)
  }

  /** The job list after `updateJob`. */
  function JobsAfterUpdate(jobs: seq<Job>, id: string, patch: JobPatch, now: int): seq<Job> {
    ApplyFirst(jobs, id, (j: Job) => MergeJob(j, patch, now))
  }

  /** The job list after `updateJobStatus`. */
  function JobsAfterStatus(jobs: seq<Job>, id: string, status: JobStatus, now: int): seq<Job> {
    ApplyFirst(jobs, id, (j: Job) => j.(updatedAt := now, data := j.data.(status := status)))
  }

  /** The job list after `completeJob`. */
  function JobsAfterComplete(jobs: seq<Job>, id: string, details: CompletionUpdates, now: int): seq<Job> {
    ApplyFirst(jobs, id, (j: Job) => CompleteRecord(j, details, now))
  }

  /** The three updating actions leave a list without the id unchanged. */
  lemma UpdatesOfAbsentIdAreNoOps(jobs: seq<Job>, id: string, patch: JobPatch, status: JobStatus,
                                  details: CompletionUpdates, now: int)
    requires !HasId(jobs, id)
    ensures JobsAfterUpdate(jobs, id, patch, now) == jobs
    ensures JobsAfterStatus(jobs, id, status, now) == jobs
    ensures JobsAfterComplete(jobs, id, details, now) == jobs
  {
  }

  /** The status update changes only `status` and `updatedAt` of the first
      job with the id, and when it sets `completed` that job can be found
      among the completed jobs. */
  lemma StatusUpdateChangesOnlyStatus(jobs: seq<Job>, id: string, status: JobStatus, now: int)
    requires HasId(jobs, id)
    ensures var i := IndexOf(jobs, id);
            var r := JobsAfterStatus(jobs, id, status, now);
            |r| == |jobs| && r[i] == jobs[i].(updatedAt := now, data := jobs[i].data.(status := status)) &&
            r[i] in JobsWithStatus(r, status)
  {
  }

  /** Completion is consistent when the completion flag agrees with the
      status. */
  predicate CompletionConsistent(job: Job) {
    job.data.completion.completed <==> job.data.status == Completed
  }

  /** `completeJob` leaves the completed job consistent, whatever it was
      before and whatever the supplied details say. */
  lemma CompleteJobIsConsistent(jobs: seq<Job>, id: string, details: CompletionUpdates, now: int)
    requires HasId(jobs, id)
    ensures var r := JobsAfterComplete(jobs, id, details, now);
            CompletionConsistent(r[IndexOf(jobs, id)]) &&
            r[IndexOf(jobs, id)] in JobsWithStatus(r, Completed)
  {
  }

  /** `updateJobStatus(id, 'completed')` does not set the completion flag, so
      the consistency of status and completion is not kept by every action. */
  lemma StatusUpdateMayBreakConsistency(job: Job, now: int)
    requires !job.data.completion.completed
    ensures var r := JobsAfterStatus([job], job.id, Completed, now);
            !CompletionConsistent(r[0])
  {
    assert IndexOf([job], job.id) == 0;
  }

  /** The supplied `completed` and `completedAt` never matter, and
      completing an already completed job again is completing it once at the
      later time. */
  lemma CompleteRecordProperties(job: Job, details: CompletionUpdates, completed: Option<bool>,
                                 completedAt: Option<int>, t1: int, t2: int)
    ensures CompleteRecord(job, details.(completed := completed, completedAt := completedAt), t1)
         == CompleteRecord(job, details, t1)
    ensures CompleteRecord(CompleteRecord(job, details, t1), details, t2) == CompleteRecord(job, details, t2)
  {
  }

  // ---------------------------------------------------------------- the store

  class CleaningJobStore {
    var jobs: seq<Job>
    var selectedJob: Option<Job>
    var loading: bool
    var error: Option<string>

    constructor ()
      ensures jobs == [] && selectedJob == None && !loading && error == None
    {
      jobs := [];
      selectedJob := None;
      loading := false;
      error := None;
    }

    /** The stubbed fetch replaces the list wholesale with an empty one. */
    method FetchJobs()
      modifies this
      ensures jobs == [] && selectedJob == old(selectedJob)
      ensures !loading && error == None
    {
      loading := true;
      error := None;
      jobs := [];
      loading := false;
    }

    method CreateJob(job: JobData, freshId: string, now: int) returns (newJob: Job)
      modifies this
      ensures newJob == Stamp(job, freshId, now)
      ensures jobs == old(jobs) + [newJob]
      ensures selectedJob == old(selectedJob) && !loading && error == None
    {
      loading := true;
      error := None;
      newJob := Stamp(job, freshId, now);
      jobs := jobs + [newJob];
      loading := false;
    }

    method UpdateJob(jobId: string, updates: JobPatch, now: int)
      modifies this
      ensures jobs == JobsAfterUpdate(old(jobs), jobId, updates, now)
      ensures selectedJob == old(selectedJob) && !loading && error == None
    {
      loading := true;
      error := None;
      var index := IndexOf(jobs, jobId);
      if index != -1 {
        jobs := jobs[index := MergeJob(jobs[index], updates, now)];
      }
      loading := false;
    }

    method UpdateJobStatus(jobId: string, status: JobStatus, now: int)
      modifies this
      ensures jobs == JobsAfterStatus(old(jobs), jobId, status, now)
      ensures selectedJob == old(selectedJob) && !loading && error == None
    {
      loading := true;
      error := None;
      var index := IndexOf(jobs, jobId);
      if index != -1 {
        jobs := jobs[index := jobs[index].(updatedAt := now, data := jobs[index].data.(status := status))];
      }
      loading := false;
    }

    method CompleteJob(jobId: string, completionDetails: CompletionUpdates, now: int)
      modifies this
      ensures jobs == JobsAfterComplete(old(jobs), jobId, completionDetails, now)
      ensures selectedJob == old(selectedJob) && !loading && error == None
    {
      loading := true;
      error := None;
      var index := IndexOf(jobs, jobId);
      if index != -1 {
        jobs := jobs[index := CompleteRecord(jobs[index], completionDetails, now)];
      }
      loading := false;
    }

    method SetSelectedJob(job: Option<Job>)
      modifies this
      ensures selectedJob == job
      ensures jobs == old(jobs) && loading == old(loading) && error == old(error)
    {
      selectedJob := job;
    }
  }
}
