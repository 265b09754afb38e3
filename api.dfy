/**
 * The typed backend client (src/lib/api.ts): the axios client's headers, the request each
 * operation sends, and the wrapper that rewrites axios failures into `API Error: ...`.
 */
module Api {
  import opened Wrappers
  import opened Strings
  import opened Json
  import opened Types

  /** A token counts when it is present and not blank: `bearerToken && bearerToken.trim()`. */
  predicate HasToken(bearerToken: Option<string>) {
    bearerToken.Some? && Trim(bearerToken.value) != ""
  }

  /**
   * `createApiClient`'s header record: JSON content type, plus `Authorization: Bearer <trimmed token>`
   * exactly when the token is not blank.
   */
  method ClientHeaders(bearerToken: Option<string>) returns (headers: map<string, string>)
    ensures "Content-Type" in headers && headers["Content-Type"] == "application/json"
    ensures "Authorization" in headers <==> HasToken(bearerToken)
    ensures "Authorization" in headers ==> headers["Authorization"] == "Bearer " + Trim(bearerToken.value)
    ensures headers.Keys <= {"Content-Type", "Authorization"}
  {
    headers := map["Content-Type" := "application/json"];
    if bearerToken.Some? && bearerToken.value != "" && Trim(bearerToken.value) != "" {
      headers := headers["Authorization" := "Bearer " + Trim(bearerToken.value)];
    }
  }

  /** An axios instance: its base URL and default headers. */
  datatype Client = Client(baseUrl: string, headers: map<string, string>)

  method CreateApiClient(baseUrl: string, bearerToken: Option<string>) returns (c: Client)
    ensures c.baseUrl == baseUrl
    ensures "Content-Type" in c.headers && c.headers["Content-Type"] == "application/json"
    ensures "Authorization" in c.headers <==> HasToken(bearerToken)
    ensures "Authorization" in c.headers ==> c.headers["Authorization"] == "Bearer " + Trim(bearerToken.value)
    ensures c.headers.Keys <= {"Content-Type", "Authorization"}
  {
    var headers := ClientHeaders(bearerToken);
    c := Client(baseUrl, headers);
  }

  datatype HttpMethod = Get | Post | Put | Delete

  /** What one operation asks axios for: method, path relative to the base URL, query parameters and body. */
  datatype ApiRequest = ApiRequest(verb: HttpMethod, path: string, params: Option<JobListParams>, body: Option<Json>)

  /** The eight operations of `createEncoreApi`, with their arguments (`None` is an omitted argument). */
  datatype Operation =
    | GetJobs(listParams: Option<JobListParams>)
    | GetJobById(id: string)
    | CreateJob(jobData: Json)
    | UpdateJob(id: string, jobData: Json)
    | DeleteJob(id: string)
    | CancelJob(id: string)
    | GetJobsByStatus(status: JobStatus, listParams: Option<JobListParams>)
    | GetQueue

  const JobsPath := "/encoreJobs"

  /** `/encoreJobs/${id}`; the id is inserted as given. */
  function JobPath(id: string): string {
    JobsPath + "/" + id
  }

  /** The id a job path names. */
  function JobIdOf(path: string): string
    requires StartsWith(path, JobsPath + "/")
  {
    path[|JobsPath| + 1..]
  }

  lemma JobPathRoundTrip(id: string)
    ensures StartsWith(JobPath(id), JobsPath + "/") && JobIdOf(JobPath(id)) == id
  {
    assert JobPath(id)[..|JobsPath| + 1] == JobsPath + "/";
  }

  /** Different jobs get different paths. */
  lemma JobPathInjective(a: string, b: string)
    requires JobPath(a) == JobPath(b)
    ensures a == b
  {
    JobPathRoundTrip(a);
    JobPathRoundTrip(b);
  }

  /** `{ status, ...params }`: a status inside `params` overrides the argument. */
  function StatusParams(status: JobStatus, params: JobListParams): (r: JobListParams)
    ensures r.page == params.page && r.size == params.size && r.sort == params.sort
    ensures params.status.Some? ==> r.status == params.status
    ensures params.status.None? ==> r.status == Some(status)
  {
    params.(status := if params.status.Some? then params.status else Some(status))
  }

  /** The request each operation sends. */
  function RequestOf(op: Operation): (r: ApiRequest)
    ensures op.GetJobs? ==> r == ApiRequest(Get, JobsPath, Some(op.listParams.GetOr(NoParams)), None)
    ensures op.GetJobById? ==> r == ApiRequest(Get, JobPath(op.id), None, None)
    ensures op.CreateJob? ==> r == ApiRequest(Post, JobsPath, None, Some(op.jobData))
    ensures op.UpdateJob? ==> r == ApiRequest(Put, JobPath(op.id), None, Some(op.jobData))
    ensures op.DeleteJob? ==> r == ApiRequest(Delete, JobPath(op.id), None, None)
    ensures op.CancelJob? ==> r == ApiRequest(Post, JobPath(op.id) + "/cancel", None, None)
    ensures op.GetJobsByStatus? ==>
      r == ApiRequest(Get, JobsPath + "/search/findByStatus",
                      Some(StatusParams(op.status, op.listParams.GetOr(NoParams))), None)
    ensures op.GetQueue? ==> r == ApiRequest(Get, "/queue", None, None)
  {
    match op
    case GetJobs(params) => ApiRequest(Get, JobsPath, Some(params.GetOr(NoParams)), None)
    case GetJobById(id) => ApiRequest(Get, JobPath(id), None, None)
    case CreateJob(body) => ApiRequest(Post, JobsPath, None, Some(body))
    case UpdateJob(id, body) => ApiRequest(Put, JobPath(id), None, Some(body))
    case DeleteJob(id) => ApiRequest(Delete, JobPath(id), None, None)
    case CancelJob(id) => ApiRequest(Post, JobPath(id) + "/cancel", None, None)
    case GetJobsByStatus(status, params) =>
      ApiRequest(Get, JobsPath + "/search/findByStatus", Some(StatusParams(status, params.GetOr(NoParams))), None)
    case GetQueue => ApiRequest(Get, "/queue", None, None)
  }

  /** Only create and update send a body; both carry the caller's data unchanged. */
  lemma BodyOnlyForWrites(op: Operation)
    ensures RequestOf(op).body.Some? <==> op.CreateJob? || op.UpdateJob?
    ensures RequestOf(op).body.Some? ==> RequestOf(op).body.value == op.jobData
  {
  }

  /** Every job operation addresses the `/encoreJobs` collection; only the queue read does not. */
  lemma JobOperationsUnderJobsPath(op: Operation)
    ensures !op.GetQueue? <==> StartsWith(RequestOf(op).path, JobsPath)
  {
    var p := RequestOf(op).path;
    if op.GetJobById? || op.UpdateJob? || op.DeleteJob? {
      assert p[..|JobsPath|] == JobsPath;
    } else if op.CancelJob? {
      assert p[..|JobsPath|] == JobsPath;
    } else if op.GetJobsByStatus? {
      assert p[..|JobsPath|] == JobsPath;
    }
  }

  /** What the operation resolves to given the response data: the data itself, or nothing for delete. */
  function ResultOf(op: Operation, data: Json): (r: Option<Json>)
    ensures r.None? <==> op.DeleteJob?
    ensures r.Some? ==> r.value == data
  {
    if op.DeleteJob? then None else Some(data)
  }

  /**
   * A thrown value: an axios error (an `Error` subclass) with the response data if a response
   * arrived, another `Error`, or a value that is not an `Error` at all.
   */
  datatype Thrown =
    | AxiosError(message: string, responseData: Option<Json>)
    | PlainError(message: string)
    | NonError(value: Json)
  {
    predicate IsErrorInstance() { !NonError? }
  }

  /** A promise's settlement. */
  datatype Outcome<T> = Resolved(value: T) | Rejected(error: Thrown)

  /** `error.response?.data?.message || error.message`, as the template literal renders it. */
  function AxiosMessage(message: string, responseData: Option<Json>): string {
    var m := if responseData.Some? then Field(responseData.value, "message") else None;
    if TruthyOpt(m) then Interpolate(m.value) else message
  }

  const ApiErrorPrefix := "API Error: "

  /**
   * `withErrorHandling`: a result passes through; an axios error becomes a plain `Error` whose
   * message is `API Error: ` and the backend's message (or the axios message); anything else is
   * rethrown unchanged. No axios error ever escapes.
   */
  function WithErrorHandling<T>(o: Outcome<T>): (r: Outcome<T>)
    ensures o.Resolved? ==> r == o
    ensures o.Rejected? && o.error.AxiosError? ==>
      r == Rejected(PlainError(ApiErrorPrefix + AxiosMessage(o.error.message, o.error.responseData)))
    ensures o.Rejected? && !o.error.AxiosError? ==> r == o
    ensures r.Rejected? ==> !r.error.AxiosError?
  {
    match o
    case Resolved(_) => o
    case Rejected(AxiosError(msg, data)) => Rejected(PlainError(ApiErrorPrefix + AxiosMessage(msg, data)))
    case Rejected(_) => o
  }

  /** Wrapping twice is wrapping once. */
  lemma WithErrorHandlingIdempotent<T>(o: Outcome<T>)
    ensures WithErrorHandling(WithErrorHandling(o)) == WithErrorHandling(o)
  {
  }

  /** The backend call, abstracted: what axios settles to for a client and a request. */
  type Transport = (Client, ApiRequest) -> Outcome<Json>

  /** One unwrapped operation of `createEncoreApi`. */
  function RawCall(c: Client, op: Operation, transport: Transport): (r: Outcome<Option<Json>>)
    ensures transport(c, RequestOf(op)).Resolved? ==> r == Resolved(ResultOf(op, transport(c, RequestOf(op)).value))
    ensures transport(c, RequestOf(op)).Rejected? ==> r == Rejected(transport(c, RequestOf(op)).error)
  {
    match transport(c, RequestOf(op))
    case Resolved(data) => Resolved(ResultOf(op, data))
    case Rejected(e) => Rejected(e)
  }

  /** The object `createSafeEncoreApi` returns: every operation over one client, wrapped. */
  datatype SafeApi = SafeApi(client: Client)

  method CreateSafeEncoreApi(baseUrl: string, bearerToken: Option<string>) returns (api: SafeApi)
    ensures api.client.baseUrl == baseUrl
    ensures "Content-Type" in api.client.headers && api.client.headers["Content-Type"] == "application/json"
    ensures "Authorization" in api.client.headers <==> HasToken(bearerToken)
    ensures "Authorization" in api.client.headers ==> api.client.headers["Authorization"] == "Bearer " + Trim(bearerToken.value)
    ensures api.client.headers.Keys <= {"Content-Type", "Authorization"}
  {
    var c := CreateApiClient(baseUrl, bearerToken);
    api := SafeApi(c);
  }

  /** Calling an operation of the safe API: the raw call behind `withErrorHandling`. */
  function Invoke(api: SafeApi, op: Operation, transport: Transport): (r: Outcome<Option<Json>>)
    ensures transport(api.client, RequestOf(op)).Resolved? ==>
      r == Resolved(ResultOf(op, transport(api.client, RequestOf(op)).value))
    ensures r.Rejected? ==> !r.error.AxiosError?
    ensures r.Rejected? <==> transport(api.client, RequestOf(op)).Rejected?
  {
    WithErrorHandling(RawCall(api.client, op, transport))
  }
}
