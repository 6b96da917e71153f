/** The ad set creation page: the country selection, the campaign taken
    from the query string, and what submitting sends to the ad set route. */
module CreateAdSetPage {
  import opened Common
  import opened JsonValues
  import opened Graph
  import AdSetsRoute

  /** The country buttons, in display order. */
  const Countries: seq<string> := ["US", "UK", "CA", "AU", "DE", "FR", "JP", "IN", "BR", "MX"]

  /** The selection the page starts with. */
  const InitialCountries: seq<string> := ["US"]

  /** `toggleCountry`: a selected country is deselected (every occurrence
      removed, the rest kept in order); an unselected one is appended. */
  function ToggleCountry(selected: seq<string>, c: string): (r: seq<string>)
    ensures c in r <==> c !in selected
    ensures forall y :: y != c ==> (y in r <==> y in selected)
    ensures c !in selected ==> r == selected + [c]
    ensures c in selected ==> |r| < |selected|
  {
    if c in selected then
      WithoutMembers(selected, c);
      WithoutShorter(selected, c);
      Without(selected, c)
    else selected + [c]
  }

  /** Removing a value that occurs shortens the sequence. */
  lemma {:induction false} WithoutShorter(xs: seq<string>, x: string)
    requires x in xs
    ensures |Without(xs, x)| < |xs|
  {
    if xs[0] != x {
      WithoutShorter(xs[1..], x);
    }
  }

  /** A selection without duplicates stays without duplicates. */
  lemma ToggleKeepsNoDuplicates(selected: seq<string>, c: string)
    requires NoDuplicates(selected)
    ensures NoDuplicates(ToggleCountry(selected, c))
  {
    if c in selected {
      WithoutNoDuplicates(selected, c);
    }
  }

  /** Selecting a country and deselecting it again restores the selection
      exactly, order included. */
  lemma ToggleTwiceRestores(selected: seq<string>, c: string)
    requires c !in selected
    ensures ToggleCountry(ToggleCountry(selected, c), c) == selected
  {
    WithoutAppend(selected, [c], c);
    WithoutAbsent(selected, c);
    assert Without([c], c) == [];
  }

  /** Deselecting a selected country and selecting it again moves it to the
      end of the selection. */
  lemma ToggleTwiceMovesToEnd(selected: seq<string>, c: string)
    requires c in selected
    ensures ToggleCountry(ToggleCountry(selected, c), c) == Without(selected, c) + [c]
  {
    WithoutMembers(selected, c);
  }

  /** The page starts with the United States selected, once. */
  lemma InitialSelection()
    ensures NoDuplicates(InitialCountries)
    ensures forall c :: c in InitialCountries <==> c == "US"
    ensures "US" in Countries
  {
  }

  /** The campaign preselected from the `campaignId` query parameter: a
      non-empty one replaces the current choice, otherwise it stays. */
  function PreselectedCampaign(param: Option<string>, current: string): (r: string)
    ensures Truthy(param) ==> r == param.value
    ensures !Truthy(param) ==> r == current
    ensures r != current ==> r != "" && param == Some(r)
  {
    if Truthy(param) then param.value else current
  }

  /** `handleSubmit` sends `{ campaignId, name }` to the ad set route, and
      nothing at all when either is empty. The countries are not sent. */
  function SubmitPayload(campaignId: string, name: string): (r: Option<Json>)
    ensures r.Some? <==> campaignId != "" && name != ""
    ensures r.Some? ==> Get(r.value, "campaignId") == Some(Str(campaignId))
                        && Get(r.value, "name") == Some(Str(name))
  {
    if campaignId == "" || name == "" then None
    else Some(Obj(map["campaignId" := Str(campaignId), "name" := Str(name)]))
  }

  /** A submitted form is always accepted by the ad set route, under the
      chosen campaign and name, and targets the United States only — the
      countries selected on the page play no part in the request. */
  lemma SubmittedAdSetTargetsDefault(env: Env, campaignId: string, name: string,
                                     selected: seq<string>, now: int, iso: int -> string)
    requires campaignId != "" && name != ""
    ensures var plan := AdSetsRoute.PostPlan(env, Parsed(SubmitPayload(campaignId, name).value), now, iso);
            var b := if plan.Call? then plan.request.body else None;
            && plan.Call?
            && Field(b, "campaign_id") == Some(Str(campaignId))
            && Field(b, "name") == Some(Str(name))
            && Field(b, "targeting") == Some(Str(AdSetsRoute.DefaultTargeting))
  {
    var p := SubmitPayload(campaignId, name).value;
    AdSetsRoute.CreateDefaults(p, now, iso);
  }
}
