/**
 * The backend's entities as the console sees them (src/types/api.ts), reduced to the
 * fields the modelled logic reads.
 */
module Types {
  import opened Wrappers

  /** A job's status; SUCCESSFUL, FAILED and CANCELLED are terminal. */
  datatype JobStatus = New | Queued | InProgress | Successful | Failed | Cancelled {
    predicate IsTerminal() {
      this == Successful || this == Failed || this == Cancelled
    }
  }

  /** The wire name of a status, as the backend spells it. */
  function StatusName(s: JobStatus): (r: string)
    ensures r != ""
  {
    match s
    case New => "NEW"
    case Queued => "QUEUED"
    case InProgress => "IN_PROGRESS"
    case Successful => "SUCCESSFUL"
    case Failed => "FAILED"
    case Cancelled => "CANCELLED"
  }

  /** Distinct statuses have distinct wire names. */
  lemma StatusNameInjective(a: JobStatus, b: JobStatus)
    requires StatusName(a) == StatusName(b)
    ensures a == b
  {
  }

  /** The label both the job list and the job detail page show for a status. */
  function StatusLabel(s: JobStatus): (r: string)
    ensures r != ""
  {
    match s
    case New => "New"
    case Queued => "Queued"
    case InProgress => "In Progress"
    case Successful => "Successful"
    case Failed => "Failed"
    case Cancelled => "Cancelled"
  }

  /** The label table is total and tells the six statuses apart. */
  lemma StatusLabelInjective(a: JobStatus, b: JobStatus)
    requires StatusLabel(a) == StatusLabel(b)
    ensures a == b
  {
  }

  /**
   * An encoding job. Dates other than `createdDate` are ISO strings that may be absent;
   * `seekTo` and `duration` are optional numbers.
   */
  datatype Job = Job(
    id: string,
    externalId: Option<string>,
    profile: string,
    outputFolder: string,
    baseName: string,
    createdDate: string,
    priority: int,
    message: Option<string>,
    progress: int,
    startedDate: Option<string>,
    completedDate: Option<string>,
    seekTo: Option<int>,
    duration: Option<int>,
    status: JobStatus)

  /** A job waiting for capacity; `created` is the creation instant in milliseconds. */
  datatype QueueItem = QueueItem(id: string, priority: int, created: int, segment: Option<int>)

  datatype PageMetadata = PageMetadata(size: int, totalElements: int, totalPages: int, number: int)

  /**
   * A page of jobs. Both parts are optional because the console reads them through
   * optional chaining (`data?._embedded?.encoreJobs`, `data?.page?.totalElements`).
   */
  datatype PagedJobs = PagedJobs(embedded: Option<seq<Job>>, page: Option<PageMetadata>)

  /** Query parameters of the job listing; every field is optional. */
  datatype JobListParams = JobListParams(
    page: Option<int>,
    size: Option<int>,
    sort: Option<seq<string>>,
    status: Option<JobStatus>)

  const NoParams := JobListParams(None, None, None, None)

  /** The colour band a priority badge gets on the queue, job list and job detail pages. */
  datatype PriorityTier = Green | Yellow | Red

  function TierRank(t: PriorityTier): nat {
    match t
    case Green => 0
    case Yellow => 1
    case Red => 2
  }

  function Tier(priority: int): (t: PriorityTier)
    ensures t == Red <==> priority >= 50
    ensures t == Yellow <==> 25 <= priority < 50
    ensures t == Green <==> priority < 25
  {
    if priority >= 50 then Red else if priority >= 25 then Yellow else Green
  }

  /** A higher priority never gets a lower band. */
  lemma TierMonotone(p: int, q: int)
    requires p <= q
    ensures TierRank(Tier(p)) <= TierRank(Tier(q))
  {
  }
}
