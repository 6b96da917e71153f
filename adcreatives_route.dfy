/** `/api/facebook/adcreatives`: create a link ad creative for a page (POST). */
module AdCreativesRoute {
  import opened Common
  import opened JsonValues
  import opened Graph

  /** `pageId || PAGE_ID`: the payload's page when truthy, else the
      configured one; None (`undefined`) when neither is set. */
  function PageOf(env: Env, p: Json): (r: Option<Json>)
    ensures JsTruthy(Get(p, "pageId")) ==> r == Get(p, "pageId")
    ensures !JsTruthy(Get(p, "pageId")) && PageId(env).Some? ==> r == Some(Str(PageId(env).value))
    ensures r.None? <==> !JsTruthy(Get(p, "pageId")) && PageId(env).None?
  {
    if JsTruthy(Get(p, "pageId")) then Get(p, "pageId")
    else if PageId(env).Some? then Some(Str(PageId(env).value))
    else None
  }

  /** The `object_story_spec`; `JSON.stringify` drops a `page_id` that is undefined. */
  function StorySpec(env: Env, p: Json): Json {
    var linkData := Obj(map[
      "link" := OrDefault(Get(p, "link"), Str("https://example.com")),
      "message" := OrDefault(Get(p, "message"), Str("Check out our example!"))
    ]);
    var page := PageOf(env, p);
    if page.Some? then Obj(map["page_id" := page.value, "link_data" := linkData])
    else Obj(map["link_data" := linkData])
  }

  function CreateBody(env: Env, p: Json): Json {
    Obj(map[
      "name" := OrDefault(Get(p, "name"), Str("Creative")),
      "object_story_spec" := StorySpec(env, p)
    ])
  }

  /** POST: nothing is validated; any parsed payload is forwarded. */
  function PostPlan(env: Env, payload: Payload): (r: Plan)
    ensures payload.Malformed? ==> r == Answer(Failure(payload.message))
    ensures payload.Parsed? ==> r.Call? && r.request.verb == POST
                                && r.request.url == TokenUrl(env, Interpolate(AdAccountId(env)) + "/adcreatives")
                                && r.request.body == Some(CreateBody(env, payload.value))
  {
    if payload.Malformed? then Answer(Failure(payload.message))
    else Call(UpstreamRequest(POST, TokenUrl(env, Interpolate(AdAccountId(env)) + "/adcreatives"), [],
                              Some(CreateBody(env, payload.value))))
  }

  /** An empty payload yields the default creative: name "Creative", the
      example link and message, and the configured page if there is one. */
  lemma EmptyPayloadDefaults(env: Env)
    ensures var b := Some(CreateBody(env, Obj(map[])));
            var spec := Field(b, "object_story_spec");
            var link := Field(spec, "link_data");
            && Field(b, "name") == Some(Str("Creative"))
            && Field(link, "link") == Some(Str("https://example.com"))
            && Field(link, "message") == Some(Str("Check out our example!"))
            && (PageId(env).Some? <==> Field(spec, "page_id").Some?)
            && (PageId(env).Some? ==> Field(spec, "page_id") == Some(Str(PageId(env).value)))
  {
  }

  /** A page given in the payload wins over the configured one. */
  lemma PayloadPageWins(env: Env, p: Json)
    requires JsTruthy(Get(p, "pageId"))
    ensures Field(Field(Some(CreateBody(env, p)), "object_story_spec"), "page_id") == Get(p, "pageId")
  {
  }
}
