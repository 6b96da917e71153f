/** The campaigns / ad sets table: grouping ad sets under their campaign
    into display rows, and the optimistic ACTIVE/PAUSED toggle that is
    rolled back when the status update fails. */
module CampaignsTable {
  import opened Common

  datatype CampaignRow = CampaignRow(id: string, name: string, status: Option<string>)
  datatype AdSetRow = AdSetRow(id: string, name: string, status: Option<string>, campaignId: string)

  /** One table row: a campaign, an ad set, or both. */
  datatype TableRow = TableRow(campaign: Option<CampaignRow>, adset: Option<AdSetRow>)

  // ---------------------------------------------------------------------
  // Specification of the grouping

  /** The ad sets of campaign `cid`, in input order. */
  function AdSetsOf(adsets: seq<AdSetRow>, cid: string): seq<AdSetRow>
    decreases |adsets|
  {
    if adsets == [] then []
    else
      var last := adsets[|adsets| - 1];
      AdSetsOf(adsets[..|adsets| - 1], cid) + (if last.campaignId == cid then [last] else [])
  }

  /** The rows of one campaign: a lone row when it has no ad set, otherwise
      one row per ad set with the campaign shown on the first only. */
  function GroupRows(c: CampaignRow, list: seq<AdSetRow>): (r: seq<TableRow>)
    ensures |r| == if list == [] then 1 else |list|
    ensures r[0].campaign == Some(c)
    ensures list == [] ==> r[0].adset == None
    ensures forall k :: 0 < k < |r| ==> r[k].campaign == None
    ensures forall k :: 0 <= k < |list| ==> r[k].adset == Some(list[k])
  {
    if list == [] then [TableRow(Some(c), None)]
    else seq(|list|, k requires 0 <= k < |list| => TableRow(if k == 0 then Some(c) else None, Some(list[k])))
  }

  /** The table rows: the groups of the campaigns, in campaign order. */
  function Rows(campaigns: seq<CampaignRow>, adsets: seq<AdSetRow>): seq<TableRow>
    decreases |campaigns|
  {
    if campaigns == [] then []
    else
      var c := campaigns[|campaigns| - 1];
      Rows(campaigns[..|campaigns| - 1], adsets) + GroupRows(c, AdSetsOf(adsets, c.id))
  }

  // ---------------------------------------------------------------------
  // The grouping as the component computes it

  /** `adsetsByCampaign`: the ad sets collected into a dictionary keyed by
      campaign id, each list in input order. */
  method GroupByCampaign(adsets: seq<AdSetRow>) returns (byCampaign: map<string, seq<AdSetRow>>)
    ensures forall k :: k in byCampaign ==> byCampaign[k] == AdSetsOf(adsets, k)
    ensures forall k :: k !in byCampaign ==> AdSetsOf(adsets, k) == []
  {
    byCampaign := map[];
    var i := 0;
    while i < |adsets|
      invariant 0 <= i <= |adsets|
      invariant forall k :: k in byCampaign ==> byCampaign[k] == AdSetsOf(adsets[..i], k)
      invariant forall k :: k !in byCampaign ==> AdSetsOf(adsets[..i], k) == []
    {
      var a := adsets[i];
      assert adsets[..i + 1][..i] == adsets[..i];
      if a.campaignId !in byCampaign {
        byCampaign := byCampaign[a.campaignId := []];
      }
      byCampaign := byCampaign[a.campaignId := byCampaign[a.campaignId] + [a]];
      i := i + 1;
    }
    assert adsets[..i] == adsets;
  }

  /** The rows pushed for one campaign and its (non-empty) ad set list. */
  method PushAdSetRows(rows: seq<TableRow>, c: CampaignRow, list: seq<AdSetRow>) returns (out: seq<TableRow>)
    requires list != []
    ensures out == rows + GroupRows(c, list)
  {
    out := rows;
    var idx := 0;
    while idx < |list|
      invariant 0 <= idx <= |list|
      invariant out == rows + seq(idx, k requires 0 <= k < idx => TableRow(if k == 0 then Some(c) else None, Some(list[k])))
    {
      out := out + [TableRow(if idx == 0 then Some(c) else None, Some(list[idx]))];
      idx := idx + 1;
    }
  }

  /** `rows`: group the ad sets by campaign id, then walk the campaigns and
      push their rows. */
  method BuildRows(campaigns: seq<CampaignRow>, adsets: seq<AdSetRow>) returns (rows: seq<TableRow>)
    ensures rows == Rows(campaigns, adsets)
    ensures campaigns == [] ==> rows == []
  {
    if |campaigns| == 0 && |adsets| == 0 {
      return [];
    }
    var byCampaign := GroupByCampaign(adsets);
    rows := [];
    var j := 0;
    while j < |campaigns|
      invariant 0 <= j <= |campaigns|
      invariant rows == Rows(campaigns[..j], adsets)
    {
      var c := campaigns[j];
      RowsStep(campaigns, adsets, j);
      var list := if c.id in byCampaign then byCampaign[c.id] else [];
      assert list == AdSetsOf(adsets, c.id);
      if |list| == 0 {
        rows := rows + [TableRow(Some(c), None)];
      } else {
        rows := PushAdSetRows(rows, c, list);
      }
      j := j + 1;
    }
    assert campaigns[..j] == campaigns;
  }

  /** One more campaign adds its group after the rows so far. */
  lemma RowsStep(campaigns: seq<CampaignRow>, adsets: seq<AdSetRow>, j: nat)
    requires j < |campaigns|
    ensures Rows(campaigns[..j + 1], adsets)
         == Rows(campaigns[..j], adsets) + GroupRows(campaigns[j], AdSetsOf(adsets, campaigns[j].id))
  {
    assert campaigns[..j + 1][..j] == campaigns[..j];
  }

  // ---------------------------------------------------------------------
  // Properties of the grouping

  /** An ad set is grouped under `cid` exactly when it is one of the input
      ad sets and names that campaign. */
  lemma {:induction false} AdSetsOfMembers(adsets: seq<AdSetRow>, cid: string)
    ensures forall a :: a in AdSetsOf(adsets, cid) <==> a in adsets && a.campaignId == cid
    decreases |adsets|
  {
    if adsets != [] {
      var n := |adsets| - 1;
      AdSetsOfMembers(adsets[..n], cid);
      assert adsets == adsets[..n] + [adsets[n]];
    }
  }

  /** Within a campaign the ad sets keep their input order. */
  lemma {:induction false} AdSetsOfInOrder(adsets: seq<AdSetRow>, cid: string)
    ensures IsSubsequence(AdSetsOf(adsets, cid), adsets)
    decreases |adsets|
  {
    if adsets != [] {
      var n := |adsets| - 1;
      AdSetsOfInOrder(adsets[..n], cid);
      SubsequenceExtend(AdSetsOf(adsets[..n], cid), adsets[..n], adsets[n], adsets[n].campaignId == cid);
      assert adsets[..n] + [adsets[n]] == adsets;
    }
  }

  /** Every row's ad set is an input ad set whose campaign is among the
      campaigns: ad sets of an unknown campaign appear in no row. */
  lemma {:induction false} RowsOnlyMatchedAdSets(campaigns: seq<CampaignRow>, adsets: seq<AdSetRow>)
    ensures forall r :: r in Rows(campaigns, adsets) && r.adset.Some? ==>
              r.adset.value in adsets && exists c :: c in campaigns && c.id == r.adset.value.campaignId
    decreases |campaigns|
  {
    if campaigns != [] {
      var n := |campaigns| - 1;
      var c := campaigns[n];
      RowsOnlyMatchedAdSets(campaigns[..n], adsets);
      AdSetsOfMembers(adsets, c.id);
      var list := AdSetsOf(adsets, c.id);
      forall r | r in Rows(campaigns, adsets) && r.adset.Some?
        ensures r.adset.value in adsets && exists c' :: c' in campaigns && c'.id == r.adset.value.campaignId
      {
        if r in Rows(campaigns[..n], adsets) {
          var c' :| c' in campaigns[..n] && c'.id == r.adset.value.campaignId;
          assert c' in campaigns;
        } else {
          var k :| 0 <= k < |GroupRows(c, list)| && GroupRows(c, list)[k] == r;
          assert list != [];
          assert r.adset.value == list[k];
          assert c in campaigns;
        }
      }
    }
  }

  /** Every ad set of a listed campaign appears in some row. */
  lemma {:induction false} RowsIncludeMatchedAdSets(campaigns: seq<CampaignRow>, adsets: seq<AdSetRow>, a: AdSetRow)
    requires a in adsets
    requires exists c :: c in campaigns && c.id == a.campaignId
    ensures exists r :: r in Rows(campaigns, adsets) && r.adset == Some(a)
    decreases |campaigns|
  {
    var n := |campaigns| - 1;
    var c := campaigns[n];
    var rest := Rows(campaigns[..n], adsets);
    var group := GroupRows(c, AdSetsOf(adsets, c.id));
    assert Rows(campaigns, adsets) == rest + group;
    if c.id == a.campaignId {
      AdSetsOfMembers(adsets, c.id);
      var list := AdSetsOf(adsets, c.id);
      var k :| 0 <= k < |list| && list[k] == a;
      assert group[k] in Rows(campaigns, adsets);
    } else {
      var c' :| c' in campaigns && c'.id == a.campaignId;
      assert c' in campaigns[..n] by { assert campaigns == campaigns[..n] + [c]; }
      RowsIncludeMatchedAdSets(campaigns[..n], adsets, a);
      var r :| r in rest && r.adset == Some(a);
      assert r in Rows(campaigns, adsets);
    }
  }

  /** Every campaign heads a row, and every campaign shown is an input campaign. */
  lemma {:induction false} RowsShowEveryCampaign(campaigns: seq<CampaignRow>, adsets: seq<AdSetRow>)
    ensures forall c :: c in campaigns ==>
              (TableRow(Some(c), None) in Rows(campaigns, adsets)
               || exists a :: TableRow(Some(c), Some(a)) in Rows(campaigns, adsets))
    ensures forall r :: r in Rows(campaigns, adsets) && r.campaign.Some? ==> r.campaign.value in campaigns
    decreases |campaigns|
  {
    if campaigns != [] {
      var n := |campaigns| - 1;
      var last := campaigns[n];
      RowsShowEveryCampaign(campaigns[..n], adsets);
      var rest := Rows(campaigns[..n], adsets);
      var group := GroupRows(last, AdSetsOf(adsets, last.id));
      assert Rows(campaigns, adsets) == rest + group;
      assert campaigns == campaigns[..n] + [last];
      assert group[0] in Rows(campaigns, adsets);
      forall c | c in campaigns
        ensures TableRow(Some(c), None) in Rows(campaigns, adsets)
                || exists a :: TableRow(Some(c), Some(a)) in Rows(campaigns, adsets)
      {
        if c != last {
          assert c in campaigns[..n];
          if TableRow(Some(c), None) !in rest {
            var a :| TableRow(Some(c), Some(a)) in rest;
            assert TableRow(Some(c), Some(a)) in Rows(campaigns, adsets);
          }
        } else if group[0].adset.Some? {
          assert TableRow(Some(c), Some(group[0].adset.value)) in Rows(campaigns, adsets);
        }
      }
    }
  }

  // ---------------------------------------------------------------------
  // Status toggle with rollback

  /** The status a toggle click asks for. */
  function NextStatus(checked: bool): string {
    if checked then "ACTIVE" else "PAUSED"
  }

  /** `prev.map(x => x.id === id ? { ...x, status } : x)` on the campaigns. */
  function WithCampaignStatus(rows: seq<CampaignRow>, id: string, status: Option<string>): (r: seq<CampaignRow>)
    ensures |r| == |rows|
    ensures forall i :: 0 <= i < |rows| ==> r[i].id == rows[i].id && r[i].name == rows[i].name
  {
    seq(|rows|, i requires 0 <= i < |rows| => if rows[i].id == id then rows[i].(status := status) else rows[i])
  }

  /** The same update on the ad sets. */
  function WithAdSetStatus(rows: seq<AdSetRow>, id: string, status: Option<string>): (r: seq<AdSetRow>)
    ensures |r| == |rows|
    ensures forall i :: 0 <= i < |rows| ==>
              r[i].id == rows[i].id && r[i].name == rows[i].name && r[i].campaignId == rows[i].campaignId
  {
    seq(|rows|, i requires 0 <= i < |rows| => if rows[i].id == id then rows[i].(status := status) else rows[i])
  }

  predicate UniqueCampaignIds(rows: seq<CampaignRow>) {
    forall i, j :: 0 <= i < j < |rows| ==> rows[i].id != rows[j].id
  }

  predicate UniqueAdSetIds(rows: seq<AdSetRow>) {
    forall i, j :: 0 <= i < j < |rows| ==> rows[i].id != rows[j].id
  }

  /** The optimistic update: ACTIVE when checked, else PAUSED, on the rows
      with that id; every other row is unchanged. */
  lemma ToggleCampaignEffect(rows: seq<CampaignRow>, id: string, checked: bool)
    ensures var r := WithCampaignStatus(rows, id, Some(NextStatus(checked)));
            forall i :: 0 <= i < |rows| ==>
              (rows[i].id == id ==> r[i].status == Some(if checked then "ACTIVE" else "PAUSED"))
              && (rows[i].id != id ==> r[i] == rows[i])
  {
  }

  /** On failure the clicked campaign's old status is put back: with unique
      ids, the optimistic update followed by the rollback gives back the
      rows as they were. */
  lemma {:induction false} CampaignRollbackRestores(rows: seq<CampaignRow>, c: CampaignRow, checked: bool)
    requires UniqueCampaignIds(rows)
    requires c in rows
    ensures WithCampaignStatus(WithCampaignStatus(rows, c.id, Some(NextStatus(checked))), c.id, c.status) == rows
  {
    var r := WithCampaignStatus(WithCampaignStatus(rows, c.id, Some(NextStatus(checked))), c.id, c.status);
    var j :| 0 <= j < |rows| && rows[j] == c;
    forall i | 0 <= i < |rows| ensures r[i] == rows[i] {
      if rows[i].id == c.id {
        assert i == j;
      }
    }
  }

  /** The ad-set toggle sets the requested status on that id only. */
  lemma ToggleAdSetEffect(rows: seq<AdSetRow>, id: string, checked: bool)
    ensures var r := WithAdSetStatus(rows, id, Some(NextStatus(checked)));
            forall i :: 0 <= i < |rows| ==>
              (rows[i].id == id ==> r[i].status == Some(if checked then "ACTIVE" else "PAUSED"))
              && (rows[i].id != id ==> r[i] == rows[i])
  {
  }

  /** The ad-set rollback restores the rows, as for campaigns. */
  lemma {:induction false} AdSetRollbackRestores(rows: seq<AdSetRow>, a: AdSetRow, checked: bool)
    requires UniqueAdSetIds(rows)
    requires a in rows
    ensures WithAdSetStatus(WithAdSetStatus(rows, a.id, Some(NextStatus(checked))), a.id, a.status) == rows
  {
    var r := WithAdSetStatus(WithAdSetStatus(rows, a.id, Some(NextStatus(checked))), a.id, a.status);
    var j :| 0 <= j < |rows| && rows[j] == a;
    forall i | 0 <= i < |rows| ensures r[i] == rows[i] {
      if rows[i].id == a.id {
        assert i == j;
      }
    }
  }
}
