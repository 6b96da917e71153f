/** `/api/facebook/ads`: create an ad from an ad set and a creative (POST). */
module AdsRoute {
  import opened Common
  import opened JsonValues
  import opened Graph

  /** The ad creation needs an ad set and a creative carrying `creative_id`. */
  predicate HasRequired(p: Json) {
    JsTruthy(Get(p, "adset_id")) && JsTruthy(Field(Get(p, "creative"), "creative_id"))
  }

  /** The body of a new ad. */
  function CreateBody(p: Json): Json
    requires HasRequired(p)
  {
    Obj(map[
      "name" := OrDefault(Get(p, "name"), Str("Test Ad")),
      "adset_id" := Get(p, "adset_id").value,
      "creative" := Get(p, "creative").value,
      "status" := OrDefault(Get(p, "status"), Str("PAUSED"))
    ])
  }

  /** POST: 400 unless `adset_id` and `creative.creative_id` are truthy. */
  function PostPlan(env: Env, payload: Payload): (r: Plan)
    ensures payload.Malformed? ==> r == Answer(Failure(payload.message))
    ensures r.Call? <==> payload.Parsed? && HasRequired(payload.value)
    ensures payload.Parsed? && !r.Call? ==>
              r == Answer(BadRequest("adset_id and creative.creative_id are required"))
    ensures r.Call? ==> r.request.verb == POST
                        && r.request.url == TokenUrl(env, Interpolate(AdAccountId(env)) + "/ads")
                        && r.request.body == Some(CreateBody(payload.value))
  {
    if payload.Malformed? then Answer(Failure(payload.message))
    else if !HasRequired(payload.value) then
      Answer(BadRequest("adset_id and creative.creative_id are required"))
    else Call(UpstreamRequest(POST, TokenUrl(env, Interpolate(AdAccountId(env)) + "/ads"), [],
                              Some(CreateBody(payload.value))))
  }

  /** The ad set and the creative are forwarded unchanged; the name and
      status fall back on "Test Ad" and PAUSED when missing or falsy. */
  lemma CreateForwardsAdSetAndCreative(p: Json)
    requires HasRequired(p)
    ensures var b := Some(CreateBody(p));
            && Field(b, "adset_id") == Get(p, "adset_id")
            && Field(b, "creative") == Get(p, "creative")
            && Field(Field(b, "creative"), "creative_id") == Field(Get(p, "creative"), "creative_id")
            && Field(b, "name") == Some(if JsTruthy(Get(p, "name")) then Get(p, "name").value else Str("Test Ad"))
            && Field(b, "status") == Some(if JsTruthy(Get(p, "status")) then Get(p, "status").value else Str("PAUSED"))
  {
  }

  /** A creative given as a bare string, or one whose `creative_id` is
      empty, is rejected. */
  lemma CreativeMustBeAnObject(adsetId: string, creative: Json)
    requires adsetId != ""
    requires !creative.Obj? || Field(Some(creative), "creative_id") == Some(Str(""))
    ensures PostPlan(Env(None, None, None, None, None, None, None),
                     Parsed(Obj(map["adset_id" := Str(adsetId), "creative" := creative]))).Answer?
  {
  }
}
