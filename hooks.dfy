/**
 * The data synchronisation layer (src/hooks/useApi.ts): query keys, each hook's cache
 * policy, the effect of each mutation's `onSuccess` on the shared query cache, and the
 * per-status counts derived from the job list.
 */
module Hooks {
  import opened Wrappers
  import opened Json
  import opened Types
  import Api

  // ---------------------------------------------------------------------------
  // Query keys

  /** One element of a query key: a string, or the (possibly omitted) listing parameters. */
  datatype KeyPart = Str(s: string) | ParamsPart(params: Option<JobListParams>)

  type QueryKey = seq<KeyPart>

  function JobsKey(params: Option<JobListParams>): QueryKey {
    [Str("jobs"), ParamsPart(params)]
  }

  function JobKey(id: string): QueryKey {
    [Str("job"), Str(id)]
  }

  function JobsByStatusKey(status: JobStatus, params: Option<JobListParams>): QueryKey {
    [Str("jobs"), Str("by-status"), Str(StatusName(status)), ParamsPart(params)]
  }

  function QueueKey(): QueryKey {
    [Str("queue")]
  }

  /** The filter `{ queryKey: ['jobs'] }` used by every mutation. */
  const JobsFilter: QueryKey := [Str("jobs")]

  /** A filter key selects every cached key it is a prefix of. */
  predicate IsPrefix(prefix: QueryKey, key: QueryKey) {
    |prefix| <= |key| && key[..|prefix|] == prefix
  }

  /**
   * `['jobs']` selects every job list and every by-status list, and never a single job or the
   * queue; a single job's key selects that job only.
   */
  lemma KeyFamilies(params: Option<JobListParams>, status: JobStatus, p2: Option<JobListParams>, id: string, other: string)
    ensures IsPrefix(JobsFilter, JobsKey(params)) && IsPrefix(JobsFilter, JobsByStatusKey(status, p2))
    ensures !IsPrefix(JobsFilter, JobKey(id)) && !IsPrefix(JobsFilter, QueueKey())
    ensures !IsPrefix(QueueKey(), JobKey(id)) && !IsPrefix(QueueKey(), JobsKey(params))
    ensures !IsPrefix(QueueKey(), JobsByStatusKey(status, p2))
    ensures IsPrefix(JobKey(id), JobKey(other)) <==> id == other
    ensures !IsPrefix(JobKey(id), JobsKey(params)) && !IsPrefix(JobKey(id), QueueKey())
    ensures !IsPrefix(JobKey(id), JobsByStatusKey(status, p2))
  {
    assert JobKey(id)[0] != JobsFilter[0];
    assert JobsKey(params)[0] != QueueKey()[0];
    assert JobsByStatusKey(status, p2)[0] != QueueKey()[0];
    assert JobKey(id)[0] != JobsKey(params)[0];
    assert JobKey(id)[0] != JobsByStatusKey(status, p2)[0];
    if IsPrefix(JobKey(id), JobKey(other)) {
      assert JobKey(other)[1] == JobKey(id)[1];
    }
  }

  // ---------------------------------------------------------------------------
  // Per-hook cache policy

  /** What a hook hands to `useQuery`; a `staleTime` of `None` falls back to the client default. */
  datatype QueryOptions = QueryOptions(
    key: QueryKey,
    op: Api.Operation,
    enabled: bool,
    staleTime: Option<nat>,
    refetchInterval: nat)

  function UseJobs(params: Option<JobListParams>): QueryOptions {
    QueryOptions(JobsKey(params), Api.GetJobs(params), true, Some(30000), 5000)
  }

  /** The single-job query runs only for a non-empty id (`enabled: !!id`). */
  function UseJob(id: string): (q: QueryOptions)
    ensures q.enabled <==> id != ""
  {
    QueryOptions(JobKey(id), Api.GetJobById(id), id != "", Some(10000), 2000)
  }

  function UseJobsByStatus(status: JobStatus, params: Option<JobListParams>): QueryOptions {
    QueryOptions(JobsByStatusKey(status, params), Api.GetJobsByStatus(status, params), true, Some(30000), 5000)
  }

  function UseQueue(): QueryOptions {
    QueryOptions(QueueKey(), Api.GetQueue, true, Some(10000), 3000)
  }

  /**
   * The policy table: lists 30 s / 5 s, a single job 10 s / 2 s, the queue 10 s / 3 s. Every hook
   * polls well inside its staleness window, and each key names the resource its query fetches.
   */
  lemma PolicyTable(params: Option<JobListParams>, id: string, status: JobStatus)
    ensures UseJobs(params).staleTime == Some(30000) && UseJobs(params).refetchInterval == 5000
    ensures UseJobsByStatus(status, params).staleTime == Some(30000)
    ensures UseJobsByStatus(status, params).refetchInterval == 5000
    ensures UseJob(id).staleTime == Some(10000) && UseJob(id).refetchInterval == 2000
    ensures UseQueue().staleTime == Some(10000) && UseQueue().refetchInterval == 3000
    ensures forall q :: q in {UseJobs(params), UseJob(id), UseJobsByStatus(status, params), UseQueue()} ==>
      q.staleTime.Some? && q.refetchInterval < q.staleTime.value
    ensures Api.RequestOf(UseJob(id).op).path == Api.JobPath(id)
    ensures Api.RequestOf(UseQueue().op).path == "/queue"
  {
  }

  // ---------------------------------------------------------------------------
  // The query cache

  /** A cached query: its data and whether it has been invalidated. */
  datatype Entry = Entry(data: Json, invalidated: bool)

  type Cache = map<QueryKey, Entry>

  /** `invalidateQueries({ queryKey: prefix })`: marks every selected entry, and changes neither data nor keys. */
  function Invalidate(m: Cache, prefix: QueryKey): (r: Cache)
    ensures r.Keys == m.Keys
    ensures forall k :: k in m ==> r[k].data == m[k].data
    ensures forall k :: k in m ==> (r[k].invalidated <==> m[k].invalidated || IsPrefix(prefix, k))
  {
    map k | k in m :: if IsPrefix(prefix, k) then m[k].(invalidated := true) else m[k]
  }

  /** `removeQueries({ queryKey: prefix })`: drops every selected entry and keeps the rest as they were. */
  function Remove(m: Cache, prefix: QueryKey): (r: Cache)
    ensures forall k :: k in r <==> k in m && !IsPrefix(prefix, k)
    ensures forall k :: k in r ==> r[k] == m[k]
  {
    map k | k in m && !IsPrefix(prefix, k) :: m[k]
  }

  /** `setQueryData(key, data)`: the entry now holds `data` and is fresh. */
  function SetData(m: Cache, key: QueryKey, data: Json): (r: Cache)
    ensures r.Keys == m.Keys + {key}
    ensures r[key] == Entry(data, false)
    ensures forall k :: k in m && k != key ==> r[k] == m[k]
  {
    m[key := Entry(data, false)]
  }

  /** A single job's key: `['job', id]` for some id. */
  predicate IsJobKey(k: QueryKey) {
    |k| == 2 && k[0] == Str("job") && k[1].Str?
  }

  /** Create: every list and the queue are invalidated; single jobs are untouched. */
  function AfterCreate(m: Cache): (r: Cache)
    ensures r.Keys == m.Keys
    ensures forall k :: k in m ==> r[k].data == m[k].data
    ensures forall k :: k in m && IsPrefix(JobsFilter, k) ==> r[k].invalidated
    ensures QueueKey() in m ==> r[QueueKey()].invalidated
    ensures forall k :: k in m && IsJobKey(k) ==> r[k] == m[k]
  {
    Invalidate(Invalidate(m, JobsFilter), QueueKey())
  }

  /** Update: the job's entry holds the returned job, lists are invalidated, the queue is untouched. */
  function AfterUpdate(m: Cache, id: string, data: Json): (r: Cache)
    ensures r.Keys == m.Keys + {JobKey(id)}
    ensures r[JobKey(id)] == Entry(data, false)
    ensures forall k :: k in m && IsPrefix(JobsFilter, k) ==> r[k].invalidated && r[k].data == m[k].data
    ensures QueueKey() in m ==> r[QueueKey()] == m[QueueKey()]
    ensures forall k :: k in m && IsJobKey(k) && k != JobKey(id) ==> r[k] == m[k]
  {
    assert JobKey(id)[0] != JobsFilter[0];
    Invalidate(SetData(m, JobKey(id), data), JobsFilter)
  }

  /** Delete: the job's entry is gone, lists are invalidated, the queue and other jobs are untouched. */
  function AfterDelete(m: Cache, id: string): (r: Cache)
    ensures JobKey(id) !in r
    ensures forall k :: k in m && IsJobKey(k) && k != JobKey(id) ==> k in r && r[k] == m[k]
    ensures forall k :: k in m && IsPrefix(JobsFilter, k) ==> k in r && r[k].invalidated && r[k].data == m[k].data
    ensures QueueKey() in m ==> QueueKey() in r && r[QueueKey()] == m[QueueKey()]
    ensures forall k :: k in r ==> k in m
  {
    var r := Invalidate(Remove(m, JobKey(id)), JobsFilter);
    assert IsPrefix(JobKey(id), JobKey(id));
    forall k | k in m && IsJobKey(k) && k != JobKey(id) ensures k in r {
      assert k[..2] == k;
    }
    forall k | k in m && IsPrefix(JobsFilter, k) ensures k in r {
      assert k[..1] == JobsFilter && k[0] == Str("jobs") && JobKey(id)[0] == Str("job");
    }
    assert QueueKey()[0] != JobKey(id)[0] && QueueKey()[0] != JobsFilter[0];
    r
  }

  /** Cancel: the job, every list and the queue are invalidated; other jobs are untouched. */
  function AfterCancel(m: Cache, id: string): (r: Cache)
    ensures r.Keys == m.Keys
    ensures forall k :: k in m ==> r[k].data == m[k].data
    ensures JobKey(id) in m ==> r[JobKey(id)].invalidated
    ensures forall k :: k in m && IsPrefix(JobsFilter, k) ==> r[k].invalidated
    ensures QueueKey() in m ==> r[QueueKey()].invalidated
    ensures forall k :: k in m && IsJobKey(k) && k != JobKey(id) ==> r[k] == m[k]
  {
    var r := Invalidate(Invalidate(Invalidate(m, JobKey(id)), JobsFilter), QueueKey());
    assert IsPrefix(JobKey(id), JobKey(id));
    forall k | k in m && IsJobKey(k) && k != JobKey(id) ensures r[k] == m[k] {
      assert k[..2] == k;
    }
    r
  }

  /** A second successful cancel of the same job leaves the cache as the first one left it. */
  lemma CancelIdempotent(m: Cache, id: string)
    ensures AfterCancel(AfterCancel(m, id), id) == AfterCancel(m, id)
  {
    var once := AfterCancel(m, id);
    var twice := AfterCancel(once, id);
    forall k | k in m ensures twice[k] == once[k] {
      assert twice[k].data == once[k].data;
      assert twice[k].invalidated == once[k].invalidated;
    }
  }

  /** React Query's shared cache, as the mutation hooks change it. */
  class QueryClient {
    var entries: Cache

    constructor ()
      ensures entries == map[]
    {
      entries := map[];
    }

    method InvalidateQueries(prefix: QueryKey)
      modifies this
      ensures entries == Invalidate(old(entries), prefix)
    {
      entries := Invalidate(entries, prefix);
    }

    method SetQueryData(key: QueryKey, data: Json)
      modifies this
      ensures entries == SetData(old(entries), key, data)
    {
      entries := SetData(entries, key, data);
    }

    method RemoveQueries(prefix: QueryKey)
      modifies this
      ensures entries == Remove(old(entries), prefix)
    {
      entries := Remove(entries, prefix);
    }

    /** `useCreateJob`'s `onSuccess`. */
    method OnCreateSuccess()
      modifies this
      ensures entries == AfterCreate(old(entries))
    {
      InvalidateQueries(JobsFilter);
      InvalidateQueries(QueueKey());
    }

    /** `useUpdateJob`'s `onSuccess`, given the returned job and the id it was called with. */
    method OnUpdateSuccess(data: Json, id: string)
      modifies this
      ensures entries == AfterUpdate(old(entries), id, data)
    {
      SetQueryData(JobKey(id), data);
      InvalidateQueries(JobsFilter);
    }

    /** `useDeleteJob`'s `onSuccess`. */
    method OnDeleteSuccess(id: string)
      modifies this
      ensures entries == AfterDelete(old(entries), id)
    {
      RemoveQueries(JobKey(id));
      InvalidateQueries(JobsFilter);
    }

    /** `useCancelJob`'s `onSuccess`. */
    method OnCancelSuccess(id: string)
      modifies this
      ensures entries == AfterCancel(old(entries), id)
    {
      InvalidateQueries(JobKey(id));
      InvalidateQueries(JobsFilter);
      InvalidateQueries(QueueKey());
    }
  }

  // ---------------------------------------------------------------------------
  // Status counts

  datatype Counts = Counts(
    total: int,
    newJobs: nat,
    queued: nat,
    inProgress: nat,
    successful: nat,
    failed: nat,
    cancelled: nat)

  /** The counter a status increments. */
  function Bucket(c: Counts, s: JobStatus): nat {
    match s
    case New => c.newJobs
    case Queued => c.queued
    case InProgress => c.inProgress
    case Successful => c.successful
    case Failed => c.failed
    case Cancelled => c.cancelled
  }

  function Increment(c: Counts, s: JobStatus): (r: Counts)
    ensures r.total == c.total
    ensures forall t :: Bucket(r, t) == Bucket(c, t) + (if t == s then 1 else 0)
  {
    match s
    case New => c.(newJobs := c.newJobs + 1)
    case Queued => c.(queued := c.queued + 1)
    case InProgress => c.(inProgress := c.inProgress + 1)
    case Successful => c.(successful := c.successful + 1)
    case Failed => c.(failed := c.failed + 1)
    case Cancelled => c.(cancelled := c.cancelled + 1)
  }

  /** How many of `jobs` have status `s`. */
  function CountStatus(jobs: seq<Job>, s: JobStatus): nat {
    if jobs == [] then 0
    else CountStatus(jobs[..|jobs| - 1], s) + (if jobs[|jobs| - 1].status == s then 1 else 0)
  }

  function BucketSum(c: Counts): nat {
    c.newJobs + c.queued + c.inProgress + c.successful + c.failed + c.cancelled
  }

  /** The six per-status counts of a sequence add up to its length. */
  lemma {:induction false} CountsCoverJobs(jobs: seq<Job>)
    ensures CountStatus(jobs, New) + CountStatus(jobs, Queued) + CountStatus(jobs, InProgress)
      + CountStatus(jobs, Successful) + CountStatus(jobs, Failed) + CountStatus(jobs, Cancelled) == |jobs|
  {
    if jobs != [] {
      CountsCoverJobs(jobs[..|jobs| - 1]);
    }
  }

  /** `allJobs?.page?.totalElements || 0`. */
  function ReportedTotal(data: Option<PagedJobs>): int {
    if data.Some? && data.value.page.Some? then data.value.page.value.totalElements else 0
  }

  /** `allJobs?.page?.totalElements === 0`. */
  predicate ReportsZero(data: Option<PagedJobs>) {
    data.Some? && data.value.page.Some? && data.value.page.value.totalElements == 0
  }

  /** `allJobs?._embedded?.encoreJobs`, with absence read as no jobs. */
  function EmbeddedJobs(data: Option<PagedJobs>): seq<Job> {
    if data.Some? && data.value.embedded.Some? then data.value.embedded.value else []
  }

  /**
   * `useJobStatusCounts`: the total is the reported element count (0 when absent); a reported
   * total of 0 short-circuits to all-zero buckets; otherwise each embedded job increments exactly
   * the bucket of its status, so the buckets add up to the number of embedded jobs.
   */
  method JobStatusCounts(data: Option<PagedJobs>) returns (c: Counts)
    ensures c.total == ReportedTotal(data)
    ensures ReportsZero(data) ==> BucketSum(c) == 0
    ensures !ReportsZero(data) ==> forall s :: Bucket(c, s) == CountStatus(EmbeddedJobs(data), s)
    ensures !ReportsZero(data) ==> BucketSum(c) == |EmbeddedJobs(data)|
  {
    c := Counts(ReportedTotal(data), 0, 0, 0, 0, 0, 0);
    if ReportsZero(data) {
      return;
    }
    var jobs := EmbeddedJobs(data);
    var i := 0;
    while i < |jobs|
      invariant 0 <= i <= |jobs|
      invariant c.total == ReportedTotal(data)
      invariant forall s :: Bucket(c, s) == CountStatus(jobs[..i], s)
    {
      assert jobs[..i + 1][..i] == jobs[..i];
      c := Increment(c, jobs[i].status);
      i := i + 1;
    }
    assert jobs[..i] == jobs;
    CountsCoverJobs(jobs);
    assert BucketSum(c) == CountStatus(jobs, New) + CountStatus(jobs, Queued) + CountStatus(jobs, InProgress)
      + CountStatus(jobs, Successful) + CountStatus(jobs, Failed) + CountStatus(jobs, Cancelled);
  }
}
