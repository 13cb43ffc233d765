/** The pending-jobs feed (`useDatabaseJobs`): its payload and derived views. */
module JobsFeed {
  import opened Seqs

  const Fallback := "Failed to fetch database jobs"

  datatype Job = Job(id: string, name: string, status: string, startTime: string, estimatedDuration: int)

  function StatusOf(job: Job): string
  {
    job.status
  }

  /** `job => job.status === status`. */
  function StatusIs(status: string): Job -> bool
  {
    (job: Job) => job.status == status
  }

  function JobsWithStatus(jobs: seq<Job>, status: string): seq<Job>
  {
    Filter(jobs, StatusIs(status))
  }

  /** `getJobCountByStatus(status)`. */
  function JobCountByStatus(jobs: seq<Job>, status: string): nat
  {
    |JobsWithStatus(jobs, status)|
  }

  function RunningJobs(jobs: seq<Job>): seq<Job>
  {
    JobsWithStatus(jobs, "Running")
  }

  function QueuedJobs(jobs: seq<Job>): seq<Job>
  {
    JobsWithStatus(jobs, "Queued")
  }

  function ScheduledJobs(jobs: seq<Job>): seq<Job>
  {
    JobsWithStatus(jobs, "Scheduled")
  }

  /** `totalJobs`. */
  function TotalJobs(jobs: seq<Job>): nat
  {
    |jobs|
  }

  /** The jobs with a status form an order-preserving subsequence of the jobs
      that holds each job with exactly that status as often as it occurs,
      and no other job. */
  lemma JobsWithStatusSpec(jobs: seq<Job>, status: string)
    ensures IsSubsequence(JobsWithStatus(jobs, status), jobs)
    ensures forall j :: j in JobsWithStatus(jobs, status) <==> j in jobs && j.status == status
    ensures forall j ::
      multiset(JobsWithStatus(jobs, status))[j] == (if j.status == status then multiset(jobs)[j] else 0)
  {
    FilterIsSubsequence(jobs, StatusIs(status));
    FilterMembers(jobs, StatusIs(status));
    FilterMultiset(jobs, StatusIs(status));
  }

  /** The count for a status is how often that exact status occurs among the
      jobs' statuses. */
  lemma CountIsMultiplicity(jobs: seq<Job>, status: string)
    ensures JobCountByStatus(jobs, status) == multiset(MapSeq(jobs, StatusOf))[status]
  {
    FilterCountIsMultiplicity(jobs, StatusIs(status), StatusOf, status);
  }

  /** The running, queued and scheduled lists together hold at most all jobs. */
  lemma StatusListsBound(jobs: seq<Job>)
    ensures |RunningJobs(jobs)| + |QueuedJobs(jobs)| + |ScheduledJobs(jobs)| <= TotalJobs(jobs)
  {
    DisjointFiltersLength(jobs, StatusIs("Running"), StatusIs("Queued"), StatusIs("Scheduled"));
  }
}
