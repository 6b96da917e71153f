/** What the ad routes share: the environment configuration they read, the
    request they would send to the Graph API, and how they turn its reply,
    or a failure, into their own response. */
module Graph {
  import opened Common
  import opened JsonValues

  /** The environment variables the routes read (None when unset). */
  datatype Env = Env(
    apiVersion: Option<string>,          // NEXT_PUBLIC_FB_API_VERSION
    accessToken: Option<string>,         // FACEBOOK_ACCESS_TOKEN
    publicAccessToken: Option<string>,   // NEXT_PUBLIC_FACEBOOK_ACCESS_TOKEN
    adAccountId: Option<string>,         // FB_AD_ACCOUNT_ID
    publicAdAccountId: Option<string>,   // NEXT_PUBLIC_FB_AD_ACCOUNT_ID
    pageId: Option<string>,              // FB_PAGE_ID
    publicPageId: Option<string>)        // NEXT_PUBLIC_FB_PAGE_ID

  function ApiVersion(env: Env): string { OrElse(env.apiVersion, "v24.0") }
  function AccessToken(env: Env): Option<string> { Or(env.accessToken, env.publicAccessToken) }
  function AdAccountId(env: Env): Option<string> { Or(env.adAccountId, env.publicAdAccountId) }
  function PageId(env: Env): Option<string> { Or(env.pageId, env.publicPageId) }

  /** `https://graph.facebook.com/${API_VERSION}/${path}` */
  function GraphUrl(env: Env, path: string): string {
    "https://graph.facebook.com/" + ApiVersion(env) + "/" + path
  }

  /** `${GraphUrl}?access_token=${ACCESS_TOKEN}`, as the POST routes build it. */
  function TokenUrl(env: Env, path: string): string {
    GraphUrl(env, path) + "?access_token=" + Interpolate(AccessToken(env))
  }

  datatype Method = GET | POST

  /** A request to the Graph API: the URL, the query parameters set through
      `URLSearchParams` (in order), and the JSON body. */
  datatype UpstreamRequest = UpstreamRequest(
    verb: Method,
    url: string,
    query: seq<(string, string)>,
    body: Option<Json>)

  /** What came back from `fetch`: a reply, or a thrown error. */
  datatype Upstream =
    | Replied(status: int, text: string, contentType: Option<string>)
    | Threw(message: string)

  datatype ResponseBody = Raw(text: string) | ErrorJson(error: string)

  datatype Response = Response(status: int, body: ResponseBody, contentType: Option<string>)

  /** The request body as `req.json()` delivered it. */
  datatype Payload = Parsed(value: Json) | Malformed(message: string)

  /** A route's decision before any upstream call: answer at once, or call. */
  datatype Plan = Answer(response: Response) | Call(request: UpstreamRequest)

  /** The catch-all: status 500 with the error's message, or "Unknown error". */
  function Failure(message: string): (r: Response)
    ensures r.status == 500 && r.contentType == None
    ensures message != "" ==> r.body == ErrorJson(message)
    ensures message == "" ==> r.body == ErrorJson("Unknown error")
  {
    Response(500, ErrorJson(if message != "" then message else "Unknown error"), None)
  }

  /** A 400 with `{ error }`. */
  function BadRequest(error: string): (r: Response)
    ensures r.status == 400
  {
    Response(400, ErrorJson(error), None)
  }

  /** The statuses whose responses may carry no body (section 2.2.3 of the
      Fetch standard): 101, 103, 204, 205 and 304. `fetch` never hands back
      an informational 1xx, so 204, 205 and 304 are the ones that occur. */
  predicate NullBodyStatus(status: int) {
    status == 101 || status == 103 || status == 204 || status == 205 || status == 304
  }

  /** The response once the call is made. The route rebuilds it with
      `new Response(text, { status, headers })`: the upstream status and body
      unchanged, its content type or `application/json`. A string body with
      a null-body status makes that constructor throw, and the catch answers
      500 with the thrown message (`nullBodyError`); a thrown `fetch` is a 500
      too. */
  function Relay(u: Upstream, nullBodyError: string): (r: Response)
    ensures u.Replied? && !NullBodyStatus(u.status) ==> r.status == u.status && r.body == Raw(u.text)
    ensures u.Replied? && !NullBodyStatus(u.status) && u.contentType.Some? && u.contentType.value != "" ==>
              r.contentType == u.contentType
    ensures u.Replied? && !NullBodyStatus(u.status) && !Truthy(u.contentType) ==>
              r.contentType == Some("application/json")
    ensures u.Replied? && NullBodyStatus(u.status) ==> r == Failure(nullBodyError)
    ensures u.Threw? ==> r == Failure(u.message)
    // whatever happened upstream, the route answers its status or a 500
    ensures r.status == 500 || (u.Replied? && r.status == u.status)
  {
    match u
    case Replied(status, text, ct) =>
      if NullBodyStatus(status) then Failure(nullBodyError)
      else Response(status, Raw(text), Some(OrElse(ct, "application/json")))
    case Threw(m) => Failure(m)
  }

  /** The route's response for a plan and whatever the upstream did. */
  function Complete(plan: Plan, upstream: Upstream, nullBodyError: string): Response {
    if plan.Answer? then plan.response else Relay(upstream, nullBodyError)
  }

  /** An immediate answer is the same whatever the upstream does: no call
      is made. */
  lemma AnswerIgnoresUpstream(plan: Plan, u1: Upstream, u2: Upstream, e1: string, e2: string)
    requires plan.Answer?
    ensures Complete(plan, u1, e1) == Complete(plan, u2, e2)
  {
  }

  /** `payload || {}` then a key of it. */
  function Get(payload: Json, key: string): Option<Json> {
    Field(Some(payload), key)
  }

  /** PATCH, the same in the campaign and ad set routes: 400 unless both
      `id` and `status` are truthy; otherwise the status alone is posted to
      the object's own URL. */
  function PatchStatus(env: Env, payload: Payload): (r: Plan)
    ensures payload.Malformed? ==> r == Answer(Failure(payload.message))
    ensures r.Call? <==> payload.Parsed? && JsTruthy(Get(payload.value, "id")) && JsTruthy(Get(payload.value, "status"))
    ensures payload.Parsed? && !r.Call? ==> r == Answer(BadRequest("id and status are required"))
    ensures r.Call? ==> r.request.verb == POST && r.request.query == []
                        && r.request.url == TokenUrl(env, ToJsString(Get(payload.value, "id").value))
                        && r.request.body == Some(Obj(map["status" := Get(payload.value, "status").value]))
  {
    if payload.Malformed? then Answer(Failure(payload.message))
    else
      var id := Get(payload.value, "id");
      var status := Get(payload.value, "status");
      if !JsTruthy(id) || !JsTruthy(status) then Answer(BadRequest("id and status are required"))
      else Call(UpstreamRequest(POST, TokenUrl(env, ToJsString(id.value)), [],
                                Some(Obj(map["status" := status.value]))))
  }

  /** What the dashboard table sends when a status switch is flipped,
      `{ id, status }` with a non-empty id and ACTIVE or PAUSED, passes
      validation and posts exactly that status to the object. */
  lemma StatusToggleAccepted(env: Env, id: string, status: string)
    requires id != "" && (status == "ACTIVE" || status == "PAUSED")
    ensures var r := PatchStatus(env, Parsed(Obj(map["id" := Str(id), "status" := Str(status)])));
            && r.Call? && r.request.verb == POST
            && r.request.url == TokenUrl(env, id)
            && r.request.body == Some(Obj(map["status" := Str(status)]))
  {
  }
}
