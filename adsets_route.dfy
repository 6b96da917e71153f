/** `/api/facebook/adsets`: list ad sets (GET), create one (POST) and
    change its status (PATCH), each forwarded to the Graph API. */
module AdSetsRoute {
  import opened Common
  import opened JsonValues
  import opened Graph

  const DefaultFields: string := "id,name,status,campaign_id"
  const DefaultLimit: string := "50"
  const DefaultName: string := "Test Ad Set"
  const DefaultTargeting: string := "{\"geo_locations\":{\"countries\":[\"US\"]}}"
  /** Seven days in milliseconds. */
  const Week: int := 7 * 24 * 60 * 60 * 1000

  /** GET: the ad sets of `campaignId` when it is given, else of the account. */
  function GetRequest(env: Env, fields: Option<string>, limit: Option<string>, campaignId: Option<string>): (r: UpstreamRequest)
    ensures r.verb == GET
    ensures Truthy(campaignId) ==> r.url == GraphUrl(env, campaignId.value + "/adsets")
    ensures !Truthy(campaignId) ==> r.url == GraphUrl(env, Interpolate(AdAccountId(env)) + "/adsets")
    ensures r.query == [("access_token", Interpolate(AccessToken(env))),
                        ("fields", if Truthy(fields) then fields.value else "id,name,status,campaign_id"),
                        ("limit", if Truthy(limit) then limit.value else "50")]
    ensures r.body == None
  {
    var node := if Truthy(campaignId) then campaignId.value else Interpolate(AdAccountId(env));
    UpstreamRequest(GET, GraphUrl(env, node + "/adsets"),
                    [("access_token", Interpolate(AccessToken(env))),
                     ("fields", OrElse(fields, DefaultFields)),
                     ("limit", OrElse(limit, DefaultLimit))],
                    None)
  }

  /** The body POST sends upstream. `iso` formats a time in milliseconds
      the way `toISOString` does; `now` is the current time. */
  function CreateBody(p: Json, now: int, iso: int -> string): Json
    requires JsTruthy(Get(p, "campaignId"))
  {
    Obj(map[
      "name" := OrDefault(Get(p, "name"), Str(DefaultName)),
      "optimization_goal" := Str("REACH"),
      "billing_event" := Str("IMPRESSIONS"),
      "bid_amount" := Str(ToJsString(Coalesce(Get(p, "bid_amount"), Num(100)))),
      "daily_budget" := Str(ToJsString(Coalesce(Get(p, "daily_budget"), Num(1000)))),
      "campaign_id" := Get(p, "campaignId").value,
      "targeting" := OrDefault(Get(p, "targeting"), Str(DefaultTargeting)),
      "start_time" := OrDefault(Get(p, "start_time"), Str(iso(now))),
      "end_time" := OrDefault(Get(p, "end_time"), Str(iso(now + Week)))
    ])
  }

  /** POST: 400 without a (truthy) `campaignId`, otherwise create. */
  function PostPlan(env: Env, payload: Payload, now: int, iso: int -> string): (r: Plan)
    ensures payload.Malformed? ==> r == Answer(Failure(payload.message))
    ensures payload.Parsed? && !JsTruthy(Get(payload.value, "campaignId")) ==>
              r == Answer(BadRequest("campaignId is required"))
    ensures r.Call? <==> payload.Parsed? && JsTruthy(Get(payload.value, "campaignId"))
    ensures r.Call? ==> r.request.verb == POST && r.request.url == TokenUrl(env, Interpolate(AdAccountId(env)) + "/adsets")
                        && r.request.body == Some(CreateBody(payload.value, now, iso))
  {
    if payload.Malformed? then Answer(Failure(payload.message))
    else if !JsTruthy(Get(payload.value, "campaignId")) then Answer(BadRequest("campaignId is required"))
    else Call(UpstreamRequest(POST, TokenUrl(env, Interpolate(AdAccountId(env)) + "/adsets"), [],
                              Some(CreateBody(payload.value, now, iso))))
  }

  /** `String(100)` and `String(1000)`. */
  lemma DefaultAmountsAsText()
    ensures ToJsString(Num(100)) == "100" && ToJsString(Num(1000)) == "1000"
  {
    assert NatDecimal(1) == "1";
    assert NatDecimal(10) == "10";
    assert NatDecimal(100) == "100";
    assert NatDecimal(1000) == "1000";
  }

  /** The bid and the budget fall back on 100 and 1000 only when missing or
      null (so an explicit 0 is kept), and are always sent as strings. */
  lemma CreateAmounts(p: Json, now: int, iso: int -> string)
    requires JsTruthy(Get(p, "campaignId"))
    ensures var b := Some(CreateBody(p, now, iso));
      && (Nullish(Get(p, "bid_amount")) ==> Field(b, "bid_amount") == Some(Str("100")))
      && (Get(p, "bid_amount") == Some(Num(0)) ==> Field(b, "bid_amount") == Some(Str("0")))
      && (Nullish(Get(p, "daily_budget")) ==> Field(b, "daily_budget") == Some(Str("1000")))
      && (Get(p, "daily_budget") == Some(Num(0)) ==> Field(b, "daily_budget") == Some(Str("0")))
      // a given amount, 0 included, is sent as its `String` form
      && (!Nullish(Get(p, "bid_amount")) ==> Field(b, "bid_amount") == Some(Str(ToJsString(Get(p, "bid_amount").value))))
      && (!Nullish(Get(p, "daily_budget")) ==> Field(b, "daily_budget") == Some(Str(ToJsString(Get(p, "daily_budget").value))))
      && Field(b, "bid_amount").value.Str? && Field(b, "daily_budget").value.Str?
  {
    DefaultAmountsAsText();
  }

  /** The fixed fields of a created ad set: the name falls back on any
      falsy value, the goal and billing event are fixed and the campaign is
      the one asked for. */
  lemma CreateDefaults(p: Json, now: int, iso: int -> string)
    requires JsTruthy(Get(p, "campaignId"))
    ensures var b := Some(CreateBody(p, now, iso));
      && Field(b, "name") == Some(if JsTruthy(Get(p, "name")) then Get(p, "name").value else Str("Test Ad Set"))
      && Field(b, "optimization_goal") == Some(Str("REACH"))
      && Field(b, "billing_event") == Some(Str("IMPRESSIONS"))
      && Field(b, "campaign_id") == Get(p, "campaignId")
  {
  }

  /** Targeting defaults to the United States, and the run lasts a week from
      now, unless (truthy) values are given, which are forwarded as they are. */
  lemma CreateTargetingAndSchedule(p: Json, now: int, iso: int -> string)
    requires JsTruthy(Get(p, "campaignId"))
    ensures var b := Some(CreateBody(p, now, iso));
      && (!JsTruthy(Get(p, "targeting")) ==> Field(b, "targeting") == Some(Str(DefaultTargeting)))
      && (JsTruthy(Get(p, "targeting")) ==> Field(b, "targeting") == Get(p, "targeting"))
      && (!JsTruthy(Get(p, "start_time")) ==> Field(b, "start_time") == Some(Str(iso(now))))
      && (JsTruthy(Get(p, "start_time")) ==> Field(b, "start_time") == Get(p, "start_time"))
      && (!JsTruthy(Get(p, "end_time")) ==> Field(b, "end_time") == Some(Str(iso(now + 604800000))))
      && (JsTruthy(Get(p, "end_time")) ==> Field(b, "end_time") == Get(p, "end_time"))
  {
  }

  /** A validation failure answers with 400 whatever the upstream would
      have said: no call is made. */
  lemma RejectedPostMakesNoCall(env: Env, payload: Payload, now: int, iso: int -> string,
                                 u1: Upstream, u2: Upstream, e1: string, e2: string)
    requires payload.Parsed? && !JsTruthy(Get(payload.value, "campaignId"))
    ensures Complete(PostPlan(env, payload, now, iso), u1, e1) == Complete(PostPlan(env, payload, now, iso), u2, e2)
    ensures Complete(PostPlan(env, payload, now, iso), u1, e1).status == 400
  {
  }
}
