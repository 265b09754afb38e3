/**
 * The job detail page (src/pages/JobDetail.tsx): which state the page is in, and the
 * status- and field-driven display rules of a loaded job.
 */
module JobDetailPage {
  import opened Wrappers
  import opened Types
  import Api

  /** The page's four outcomes: a missing route id, loading, an error or no job, or the job. */
  datatype View = InvalidId | Loading | NotFound | Shown(job: Job)

  function ViewOf(id: string, loading: bool, failed: bool, job: Option<Job>): (v: View)
    ensures id == "" <==> v == InvalidId
    ensures v.Shown? <==> id != "" && !loading && !failed && job.Some?
    ensures v.Shown? ==> v.job == job.value
  {
    if id == "" then InvalidId
    else if loading then Loading
    else if failed || job.None? then NotFound
    else Shown(job.value)
  }

  /** The cancel button is offered for NEW, QUEUED and IN_PROGRESS. */
  predicate CancelOffered(status: JobStatus) {
    status == New || status == Queued || status == InProgress
  }

  /** Cancel is offered exactly while the job has not reached a terminal status. */
  lemma CancelOfferedIffNotTerminal(status: JobStatus)
    ensures CancelOffered(status) <==> !status.IsTerminal()
    ensures status == Successful || status == Failed || status == Cancelled ==> !CancelOffered(status)
  {
  }

  /** The cancel handler: a request for this job is sent only after the user confirms. */
  function CancelRequest(confirmed: bool, id: string): (r: Option<Api.ApiRequest>)
    ensures r.Some? <==> confirmed
    ensures r.Some? ==> r.value.verb == Api.Post && r.value.path == Api.JobPath(id) + "/cancel" && r.value.body.None?
  {
    if confirmed then Some(Api.RequestOf(Api.CancelJob(id))) else None
  }

  /** The progress section appears only for a job in progress. */
  predicate ShowsProgress(job: Job) {
    job.status == InProgress
  }

  /** A string field that renders only when truthy, that is present and non-empty. */
  predicate TruthyText(o: Option<string>) {
    o.Some? && o.value != ""
  }

  /** A number field that renders only when truthy, that is present and non-zero. */
  predicate TruthyNumber(o: Option<int>) {
    o.Some? && o.value != 0
  }

  /** The failure box: `job.message && job.status === 'FAILED'`. */
  predicate ShowsFailure(job: Job) {
    TruthyText(job.message) && job.status == Failed
  }

  /** The rows the details list adds beyond the always-shown fields. */
  datatype OptionalRows = OptionalRows(started: bool, completed: bool, seekTo: bool, duration: bool)

  function OptionalRowsOf(job: Job): (r: OptionalRows)
    ensures r.started <==> job.startedDate.Some? && job.startedDate.value != ""
    ensures r.completed <==> job.completedDate.Some? && job.completedDate.value != ""
    ensures r.seekTo <==> job.seekTo.Some? && job.seekTo.value != 0
    ensures r.duration <==> job.duration.Some? && job.duration.value != 0
  {
    OptionalRows(TruthyText(job.startedDate), TruthyText(job.completedDate), TruthyNumber(job.seekTo), TruthyNumber(job.duration))
  }

  /** What the status badge and the sections show for a loaded job. */
  datatype Display = Display(
    statusLabel: string,
    tier: PriorityTier,
    cancel: bool,
    progress: bool,
    failure: bool,
    rows: OptionalRows)

  function DisplayOf(job: Job): (d: Display)
    ensures d.statusLabel == StatusLabel(job.status)
    ensures d.tier == Tier(job.priority)
    ensures d.cancel <==> !job.status.IsTerminal()
    ensures d.progress <==> job.status == InProgress
    ensures d.failure <==> job.status == Failed && job.message.Some? && job.message.value != ""
    ensures d.progress ==> !d.failure
    ensures d.failure ==> !d.cancel
    ensures d.rows == OptionalRowsOf(job)
  {
    CancelOfferedIffNotTerminal(job.status);
    Display(StatusLabel(job.status), Tier(job.priority), CancelOffered(job.status), ShowsProgress(job), ShowsFailure(job), OptionalRowsOf(job))
  }

  /** A zero seek or duration is hidden although it is a value: the rows test truthiness. */
  lemma ZeroIsHidden(job: Job)
    requires job.seekTo == Some(0) && job.duration == Some(0)
    ensures !OptionalRowsOf(job).seekTo && !OptionalRowsOf(job).duration
  {
  }
}
