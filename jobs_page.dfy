/**
 * The job list page (src/pages/Jobs.tsx): the query it issues, the client-side search filter,
 * what the list area shows, and the pagination state and labels.
 */
module JobsPage {
  import opened Wrappers
  import opened Strings
  import opened Types

  /** The rows per page the page asks for. */
  const PageSize := 20

  /** The status drop-down: every status, or one. */
  datatype StatusFilter = All | Only(status: JobStatus)

  /** `{ page, size: 20, ...(statusFilter !== 'all' && { status }) }`. */
  function QueryParams(page: int, filter: StatusFilter): (p: JobListParams)
    ensures p.page == Some(page) && p.size == Some(PageSize) && p.sort.None?
    ensures p.status.Some? <==> filter.Only?
    ensures filter.Only? ==> p.status == Some(filter.status)
  {
    JobListParams(Some(page), Some(PageSize), None, if filter.Only? then Some(filter.status) else None)
  }

  // ---------------------------------------------------------------------------
  // Search filter

  /** The search test: an empty term keeps everything, otherwise a case-insensitive substring test. */
  predicate Matches(job: Job, term: string) {
    var t := Lower(term);
    term == ""
    || Includes(Lower(job.baseName), t)
    || Includes(Lower(job.id), t)
    || (job.externalId.Some? && Includes(Lower(job.externalId.value), t))
  }

  /** `jobs.filter(...)` with the search test. */
  function FilterJobs(jobs: seq<Job>, term: string): (r: seq<Job>)
    ensures |r| <= |jobs|
    ensures forall j :: j in r <==> j in jobs && Matches(j, term)
    ensures multiset(r) <= multiset(jobs)
    ensures forall j :: multiset(r)[j] == if Matches(j, term) then multiset(jobs)[j] else 0
  {
    if jobs == [] then []
    else
      var rest := FilterJobs(jobs[1..], term);
      assert jobs == [jobs[0]] + jobs[1..];
      if Matches(jobs[0], term) then [jobs[0]] + rest else rest
  }

  /** An empty term keeps every job, in order. */
  lemma {:induction false} EmptyTermKeepsAll(jobs: seq<Job>)
    ensures FilterJobs(jobs, "") == jobs
  {
    if jobs != [] {
      EmptyTermKeepsAll(jobs[1..]);
      assert jobs == [jobs[0]] + jobs[1..];
    }
  }

  /** `a` is `b` with some elements removed, the rest in their original order. */
  predicate Subsequence(a: seq<Job>, b: seq<Job>)
    decreases |b|
  {
    if a == [] then true
    else if b == [] then false
    else if a[0] == b[0] then Subsequence(a[1..], b[1..])
    else Subsequence(a, b[1..])
  }

  /** The filter only removes jobs and keeps the order of the ones it keeps. */
  lemma {:induction false} FilterPreservesOrder(jobs: seq<Job>, term: string)
    ensures Subsequence(FilterJobs(jobs, term), jobs)
  {
    if jobs != [] {
      FilterPreservesOrder(jobs[1..], term);
      var r := FilterJobs(jobs, term);
      var rest := FilterJobs(jobs[1..], term);
      if Matches(jobs[0], term) {
        assert r == [jobs[0]] + rest;
        assert r[1..] == rest;
      } else {
        assert r == rest;
      }
    }
  }

  /** The search term is case-insensitive. */
  lemma TermCaseIgnored(jobs: seq<Job>, term: string)
    ensures FilterJobs(jobs, Lower(term)) == FilterJobs(jobs, term)
  {
    LowerIdempotent(term);
    assert forall j :: Matches(j, Lower(term)) <==> Matches(j, term) by {
      assert Lower(term) == "" <==> term == "";
    }
    FilterSameTest(jobs, Lower(term), term);
  }

  lemma {:induction false} FilterSameTest(jobs: seq<Job>, t1: string, t2: string)
    requires forall j :: Matches(j, t1) <==> Matches(j, t2)
    ensures FilterJobs(jobs, t1) == FilterJobs(jobs, t2)
  {
    if jobs != [] {
      FilterSameTest(jobs[1..], t1, t2);
    }
  }

  // ---------------------------------------------------------------------------
  // What the list area shows

  datatype ListView =
    | Skeleton
    | LoadError
    | NoJobsYet
    | NoMatches
    | Table(jobs: seq<Job>)

  /**
   * The list area: the skeleton while loading, the error box, then an empty state when the
   * filtered list is absent or empty (its text depends on whether the backend returned an empty
   * list; an absent list counts as "no match"), else the table of filtered jobs.
   */
  function ListViewOf(loading: bool, failed: bool, data: Option<PagedJobs>, term: string): (v: ListView)
    ensures loading ==> v == Skeleton
    ensures !loading && failed ==> v == LoadError
    ensures v.Table? ==> |v.jobs| > 0 && forall j :: j in v.jobs ==> Matches(j, term)
    ensures v == NoJobsYet <==> !loading && !failed && data.Some? && data.value.embedded == Some([])
  {
    var embedded := if data.Some? then data.value.embedded else None;
    if loading then Skeleton
    else if failed then LoadError
    else if embedded.None? then NoMatches
    else
      var filtered := FilterJobs(embedded.value, term);
      if filtered == [] then (if embedded.value == [] then NoJobsYet else NoMatches)
      else Table(filtered)
  }

  /** The second line of a row: `job.externalId || job.id.slice(0, 8)`. */
  function SecondaryLabel(job: Job): (r: string)
    ensures job.externalId.Some? && job.externalId.value != "" ==> r == job.externalId.value
    ensures job.externalId.None? || job.externalId.value == "" ==> r == Take(job.id, 8)
  {
    if job.externalId.Some? && job.externalId.value != "" then job.externalId.value else Take(job.id, 8)
  }

  // ---------------------------------------------------------------------------
  // Pagination

  /** The pagination bar renders only when the backend reports more than one page. */
  predicate PaginationShown(data: Option<PagedJobs>) {
    data.Some? && data.value.page.Some? && data.value.page.value.totalPages > 1
  }

  predicate PreviousDisabled(page: int) {
    page == 0
  }

  predicate NextDisabled(page: int, totalPages: int) {
    page >= totalPages - 1
  }

  /** "Showing `page*20+1` to `min((page+1)*20, totalElements)`". */
  function RangeLabel(page: int, totalElements: int): (r: (int, int))
  {
    (page * PageSize + 1, if (page + 1) * PageSize < totalElements then (page + 1) * PageSize else totalElements)
  }

  /**
   * On a page that holds results the range is non-empty, lies within the results and spans at
   * most one page; consecutive pages' ranges meet without a gap.
   */
  lemma RangeWithinResults(page: int, totalElements: int)
    requires 0 <= page && page * PageSize < totalElements
    ensures var (lo, hi) := RangeLabel(page, totalElements);
      1 <= lo <= hi <= totalElements && hi - lo < PageSize
    ensures (page + 1) * PageSize < totalElements ==> RangeLabel(page + 1, totalElements).0 == RangeLabel(page, totalElements).1 + 1
  {
  }

  /** The page's own state: the search box, the status drop-down and the page number. */
  class JobsView {
    var searchTerm: string
    var statusFilter: StatusFilter
    var page: int

    predicate Valid()
      reads this
    {
      page >= 0
    }

    constructor ()
      ensures Valid()
      ensures searchTerm == "" && statusFilter == All && page == 0
    {
      searchTerm := "";
      statusFilter := All;
      page := 0;
    }

    /** The query the page issues for its current state. */
    function Query(): (p: JobListParams)
      reads this
      ensures p.page == Some(page) && p.size == Some(PageSize) && p.sort.None?
      ensures p.status.Some? <==> statusFilter.Only?
      ensures statusFilter.Only? ==> p.status == Some(statusFilter.status)
    {
      QueryParams(page, statusFilter)
    }

    method SetSearchTerm(term: string)
      modifies this
      ensures searchTerm == term && statusFilter == old(statusFilter) && page == old(page)
    {
      searchTerm := term;
    }

    /** Choosing a status does not reset the page number. */
    method SetStatusFilter(filter: StatusFilter)
      modifies this
      ensures statusFilter == filter && searchTerm == old(searchTerm) && page == old(page)
    {
      statusFilter := filter;
    }

    /** Previous: disabled at page 0, otherwise `setPage(Math.max(0, page - 1))`. */
    method Previous()
      requires Valid()
      modifies this
      ensures Valid()
      ensures page == if old(page) == 0 then 0 else old(page) - 1
      ensures searchTerm == old(searchTerm) && statusFilter == old(statusFilter)
    {
      if !PreviousDisabled(page) {
        page := if page - 1 > 0 then page - 1 else 0;
      }
    }

    /** Next: disabled on the last reported page, otherwise `setPage(page + 1)`. */
    method Next(totalPages: int)
      requires Valid()
      modifies this
      ensures Valid()
      ensures page == if old(page) >= totalPages - 1 then old(page) else old(page) + 1
      ensures old(page) < totalPages ==> page < totalPages
      ensures searchTerm == old(searchTerm) && statusFilter == old(statusFilter)
    {
      if !NextDisabled(page, totalPages) {
        page := page + 1;
      }
    }
  }
}
