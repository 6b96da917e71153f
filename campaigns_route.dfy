/** `/api/facebook/campaigns`: list the account's campaigns (GET), create
    one (POST) and change its status (PATCH, `Graph.PatchStatus`). */
module CampaignsRoute {
  import opened Common
  import opened JsonValues
  import opened Graph

  const DefaultFields: string := "id,name,status,objective"
  const DefaultLimit: string := "50"

  /** GET: the campaigns of the ad account, with the requested fields and limit. */
  function GetRequest(env: Env, fields: Option<string>, limit: Option<string>): (r: UpstreamRequest)
    ensures r.verb == GET && r.body == None
    ensures r.url == GraphUrl(env, Interpolate(AdAccountId(env)) + "/campaigns")
    ensures r.query == [("access_token", Interpolate(AccessToken(env))),
                        ("fields", if Truthy(fields) then fields.value else "id,name,status,objective"),
                        ("limit", if Truthy(limit) then limit.value else "50")]
  {
    UpstreamRequest(GET, GraphUrl(env, Interpolate(AdAccountId(env)) + "/campaigns"),
                    [("access_token", Interpolate(AccessToken(env))),
                     ("fields", OrElse(fields, DefaultFields)),
                     ("limit", OrElse(limit, DefaultLimit))],
                    None)
  }

  /** The body of a new campaign: the given name, paused, traffic objective. */
  function CreateBody(name: Json): Json {
    Obj(map[
      "name" := name,
      "objective" := Str("OUTCOME_TRAFFIC"),
      "status" := Str("PAUSED"),
      "special_ad_categories" := Str("NONE"),
      "is_adset_budget_sharing_enabled" := Bool(false)
    ])
  }

  /** POST: 400 without a (truthy) `name`, otherwise create the campaign. */
  function PostPlan(env: Env, payload: Payload): (r: Plan)
    ensures payload.Malformed? ==> r == Answer(Failure(payload.message))
    ensures r.Call? <==> payload.Parsed? && JsTruthy(Get(payload.value, "name"))
    ensures payload.Parsed? && !r.Call? ==> r == Answer(BadRequest("name is required"))
    ensures r.Call? ==> r.request.verb == POST
                        && r.request.url == TokenUrl(env, Interpolate(AdAccountId(env)) + "/campaigns")
                        && r.request.body == Some(CreateBody(Get(payload.value, "name").value))
  {
    if payload.Malformed? then Answer(Failure(payload.message))
    else
      var name := Get(payload.value, "name");
      if !JsTruthy(name) then Answer(BadRequest("name is required"))
      else Call(UpstreamRequest(POST, TokenUrl(env, Interpolate(AdAccountId(env)) + "/campaigns"), [],
                                Some(CreateBody(name.value))))
  }

  /** A created campaign always starts paused with the traffic objective and
      no special ad category, whatever else the payload holds; its name is
      the one given. */
  lemma NewCampaignsStartPaused(env: Env, payload: Payload)
    requires PostPlan(env, payload).Call?
    ensures var b := PostPlan(env, payload).request.body;
            && Field(b, "status") == Some(Str("PAUSED"))
            && Field(b, "objective") == Some(Str("OUTCOME_TRAFFIC"))
            && Field(b, "special_ad_categories") == Some(Str("NONE"))
            && Field(b, "is_adset_budget_sharing_enabled") == Some(Bool(false))
            && Field(b, "name") == Get(payload.value, "name")
            && JsTruthy(Field(b, "name"))
  {
  }
}
