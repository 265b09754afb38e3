/**
 * The application shell (src/App.tsx): the query client's default options (the retry predicate
 * and the default staleness window) and the page route table.
 */
module App {
  import opened Wrappers
  import opened Strings
  import Json
  import Types
  import Api
  import Hooks

  // ---------------------------------------------------------------------------
  // Query client defaults

  /** Five minutes, in milliseconds. */
  const DefaultStaleTime: nat := 1000 * 60 * 5

  /** The message a thrown value exposes to `error.message`; a non-`Error` value has none. */
  function ErrorMessage(e: Api.Thrown): Option<string> {
    match e
    case AxiosError(m, _) => Some(m)
    case PlainError(m) => Some(m)
    case NonError(_) => None
  }

  /** `error instanceof Error && error.message.includes('4')`. */
  predicate MentionsFour(e: Api.Thrown) {
    e.IsErrorInstance() && Includes(ErrorMessage(e).value, "4")
  }

  /** The `retry` option: `failureCount` is the number of failures so far, counted from 0. */
  function Retry(failureCount: nat, error: Api.Thrown): bool {
    if MentionsFour(error) then false else failureCount < 3
  }

  /**
   * The digit test is a substring test on the message, not a status check: any `Error` whose
   * message holds a '4' anywhere is never retried, whatever the failure count.
   */
  lemma DigitFourStopsRetry(failureCount: nat, error: Api.Thrown)
    requires error.IsErrorInstance() && '4' in ErrorMessage(error).value
    ensures !Retry(failureCount, error)
  {
    IncludesChar(ErrorMessage(error).value, '4');
  }

  /** A retry is only ever granted below three failures, so a query runs at most four times. */
  lemma AtMostThreeRetries(failureCount: nat, error: Api.Thrown)
    ensures Retry(failureCount, error) ==> failureCount < 3
  {
  }

  /** Once retry is refused for an error, it stays refused for every later failure count. */
  lemma RetryMonotone(n: nat, m: nat, error: Api.Thrown)
    requires n <= m && !Retry(n, error)
    ensures !Retry(m, error)
  {
  }

  /** A thrown non-`Error` value skips the digit test: only the failure count decides. */
  lemma NonErrorRetriedByCount(failureCount: nat, v: Json.Json)
    ensures Retry(failureCount, Api.NonError(v)) <==> failureCount < 3
  {
  }

  /**
   * What the hooks' errors look like: the safe API turns an axios error into
   * `Error('API Error: ' + detail)`. The prefix holds no '4', so the decision rests on the detail
   * alone: a detail without a '4' is retried below three failures, one with a '4' never.
   */
  lemma SafeApiErrorsRetriedByDetail(failureCount: nat, message: string, responseData: Option<Json.Json>)
    ensures var o := Api.WithErrorHandling<Json.Json>(Api.Rejected(Api.AxiosError(message, responseData)));
      o.Rejected? &&
      (Retry(failureCount, o.error) <==>
        '4' !in Api.AxiosMessage(message, responseData) && failureCount < 3)
  {
    var detail := Api.AxiosMessage(message, responseData);
    var full := Api.ApiErrorPrefix + detail;
    IncludesChar(full, '4');
    assert '4' in full <==> '4' in detail by {
      assert '4' !in Api.ApiErrorPrefix;
      if '4' in full {
        var i :| 0 <= i < |full| && full[i] == '4';
        assert i >= |Api.ApiErrorPrefix|;
        assert detail[i - |Api.ApiErrorPrefix|] == '4';
      }
      if '4' in detail {
        var j :| 0 <= j < |detail| && detail[j] == '4';
        assert full[j + |Api.ApiErrorPrefix|] == '4';
      }
    }
  }

  /** The staleness window a query runs with: its own, or the client default. */
  function EffectiveStaleTime(q: Hooks.QueryOptions): (r: nat)
    ensures q.staleTime.Some? ==> r == q.staleTime.value
    ensures q.staleTime.None? ==> r == DefaultStaleTime
  {
    q.staleTime.GetOr(DefaultStaleTime)
  }

  /** Every hook sets its own staleness window, shorter than the five-minute default. */
  lemma HooksOverrideDefaultStaleTime(params: Option<Types.JobListParams>, id: string, status: Types.JobStatus)
    ensures forall q :: q in {Hooks.UseJobs(params), Hooks.UseJob(id), Hooks.UseJobsByStatus(status, params), Hooks.UseQueue()} ==>
      q.staleTime.Some? && EffectiveStaleTime(q) < DefaultStaleTime
  {
  }

  // ---------------------------------------------------------------------------
  // Route table

  datatype Page = Dashboard | JobsList | CreateJob | JobDetail(id: string) | QueuePage | SettingsPage

  /** The pathname without its trailing slashes; the router ignores them. */
  function StripTrailingSlashes(p: string): (r: string)
    ensures |r| <= |p| && r == p[..|r|]
    ensures r == "" || r[|r| - 1] != '/'
    ensures forall i :: |r| <= i < |p| ==> p[i] == '/'
  {
    if p != [] && p[|p| - 1] == '/' then StripTrailingSlashes(p[..|p| - 1]) else p
  }

  /** A dynamic `:id` segment: non-empty and free of '/'. */
  predicate IsSegment(s: string) {
    s != "" && '/' !in s
  }

  /**
   * The `<Routes>` table matched as the router does: static segments compare case-insensitively,
   * trailing slashes are ignored, and the static `/jobs/new` outranks the dynamic `/jobs/:id`.
   * A pathname no route matches renders no page.
   */
  function RouteOf(pathname: string): (r: Option<Page>)
    ensures r.Some? && r.value.JobDetail? ==> IsSegment(r.value.id) && Lower(r.value.id) != "new"
  {
    var p := StripTrailingSlashes(pathname);
    var l := Lower(p);
    if p == "" then Some(Dashboard)
    else if l == "/jobs" then Some(JobsList)
    else if l == "/jobs/new" then Some(CreateJob)
    else if l == "/queue" then Some(QueuePage)
    else if l == "/settings" then Some(SettingsPage)
    else if StartsWith(l, "/jobs/") && '/' !in p[6..] then
      LowerPrefix(p, 6);
      assert Lower(p) == Lower(p[..6]) + Lower(p[6..]) by { LowerConcat(p[..6], p[6..]); assert p == p[..6] + p[6..]; }
      Some(JobDetail(p[6..]))
    else None
  }

  /** The five static paths reach their five pages. */
  lemma RouteTable()
    ensures RouteOf("/") == Some(Dashboard)
    ensures RouteOf("/jobs") == Some(JobsList)
    ensures RouteOf("/jobs/new") == Some(CreateJob)
    ensures RouteOf("/queue") == Some(QueuePage)
    ensures RouteOf("/settings") == Some(SettingsPage)
  {
    assert StripTrailingSlashes("/") == "";
    assert Lower("/jobs") == "/jobs";
    assert Lower("/jobs/new") == "/jobs/new";
    assert Lower("/queue") == "/queue";
    assert Lower("/settings") == "/settings";
  }

  /** A trailing slash never changes the page. */
  lemma TrailingSlashIgnored(pathname: string)
    ensures RouteOf(pathname + "/") == RouteOf(pathname)
  {
    assert (pathname + "/")[..|pathname|] == pathname;
  }

  /** Every job id the detail route can carry is reached from `/jobs/{id}`, and only such ids. */
  lemma JobDetailRoute(id: string)
    ensures RouteOf("/jobs/" + id) == Some(JobDetail(id)) <==> IsSegment(id) && Lower(id) != "new"
  {
    if IsSegment(id) && Lower(id) != "new" {
      JobsPathShape(id);
      var l := Lower("/jobs/" + id);
      assert l != "/jobs/new" by { assert l[6..] == Lower(id); }
      assert l[1] == 'j';
    }
  }

  lemma NoTrailingSlash(p: string)
    requires p != "" && p[|p| - 1] != '/'
    ensures StripTrailingSlashes(p) == p
  {
  }

  /** `/jobs/{id}` for a segment `id`: no trailing slash to strip, and it lowers segment-wise. */
  lemma JobsPathShape(id: string)
    requires IsSegment(id)
    ensures StripTrailingSlashes("/jobs/" + id) == "/jobs/" + id
    ensures StartsWith(Lower("/jobs/" + id), "/jobs/") && Lower("/jobs/" + id)[6..] == Lower(id)
    ensures ("/jobs/" + id)[6..] == id
  {
    var p := "/jobs/" + id;
    assert p[|p| - 1] == id[|id| - 1];
    assert id[|id| - 1] in id;
    NoTrailingSlash(p);
    LowerConcat("/jobs/", id);
    assert Lower("/jobs/") == "/jobs/";
  }
}
