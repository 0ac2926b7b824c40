/** The front end's insight roll-up (frontend/src/utils/insightHelpers.ts):
    lenient metric parsing, summing the five counters of several insight
    sets, deriving CPC, CPM and CTR, and grouping campaigns by objective. */
module InsightHelpers {
  import opened Wrappers
  import opened Sums
  import opened Sorting
  import opened Grouping

  /** JavaScript's `parseFloat`: the number read from the string, or None
      where it yields NaN. The parser itself is not modelled. */
  type FloatParser = string -> Option<real>

  /** One entity's metrics as the API sends them: nullable decimal strings. */
  datatype InsightsData = InsightsData(
    spend: Option<string>,
    impressions: Option<string>,
    clicks: Option<string>,
    cpc: Option<string>,
    cpm: Option<string>,
    ctr: Option<string>,
    reach: Option<string>,
    conversations: Option<string>)

  datatype Campaign = Campaign(
    campaignId: string,
    campaignName: Option<string>,
    objective: Option<string>,
    status: Option<string>,
    updatedTime: Option<string>,
    insights: Option<InsightsData>)

  /** A roll-up with its values as numbers; the `toFixed`/`toString`
      rendering into strings is not part of the model. */
  datatype InsightTotals = InsightTotals(
    spend: real,
    impressions: real,
    clicks: real,
    reach: real,
    cpc: real,
    cpm: real,
    ctr: real,
    conversations: Option<real>)

  datatype ObjectiveGroup = ObjectiveGroup(
    objective: string,
    campaigns: seq<Campaign>,
    aggregatedInsights: InsightTotals)

  /** The five summed counters. */
  datatype Metric = Spend | Impressions | Clicks | Reach | Conversations

  function ParseInsightValue(val: Option<string>, parse: FloatParser): (r: real)
    ensures val == None || val == Some("") ==> r == 0.0
    ensures val.Some? && parse(val.value) == None ==> r == 0.0
    ensures r != 0.0 ==> val.Some? && parse(val.value) == Some(r)
    ensures val.Some? && val.value != "" && parse(val.value).Some? ==> r == parse(val.value).value
  {
    match val
    case None => 0.0
    case Some(s) =>
      if s == "" then 0.0
      else match parse(s)
        case None => 0.0
        case Some(x) => x
  }

  function Raw(ins: InsightsData, m: Metric): Option<string> {
    match m
    case Spend => ins.spend
    case Impressions => ins.impressions
    case Clicks => ins.clicks
    case Reach => ins.reach
    case Conversations => ins.conversations
  }

  /** What one list entry adds to the total of `m`; a missing entry adds nothing. */
  function Contribution(entry: Option<InsightsData>, m: Metric, parse: FloatParser): real {
    match entry
    case None => 0.0
    case Some(ins) => ParseInsightValue(Raw(ins, m), parse)
  }

  function Total(entries: seq<Option<InsightsData>>, m: Metric, parse: FloatParser): real {
    SumOf(entries, e => Contribution(e, m, parse))
  }

  /** Rates derived from summed counters; each guarded against a zero
      denominator, and a zero conversations total reported as absent. */
  function Derive(spend: real, impressions: real, clicks: real, reach: real, conversations: real): InsightTotals {
    InsightTotals(
      spend, impressions, clicks, reach,
      if clicks > 0.0 then spend / clicks else 0.0,
      if impressions > 0.0 then spend / impressions * 1000.0 else 0.0,
      if impressions > 0.0 then clicks / impressions * 100.0 else 0.0,
      if conversations > 0.0 then Some(conversations) else None)
  }

  /** The roll-up of a list of insight sets, as `sumInsights` specifies it. */
  function Rollup(entries: seq<Option<InsightsData>>, parse: FloatParser): InsightTotals {
    Derive(
      Total(entries, Spend, parse),
      Total(entries, Impressions, parse),
      Total(entries, Clicks, parse),
      Total(entries, Reach, parse),
      Total(entries, Conversations, parse))
  }

  /** `sumInsights`: one pass over the list, five running totals. */
  method SumInsights(entries: seq<Option<InsightsData>>, parse: FloatParser) returns (r: InsightTotals)
    ensures r == Rollup(entries, parse)
  {
    var spend, impressions, clicks, reach, conversations := 0.0, 0.0, 0.0, 0.0, 0.0;
    for i := 0 to |entries|
      invariant spend == Total(entries[..i], Spend, parse)
      invariant impressions == Total(entries[..i], Impressions, parse)
      invariant clicks == Total(entries[..i], Clicks, parse)
      invariant reach == Total(entries[..i], Reach, parse)
      invariant conversations == Total(entries[..i], Conversations, parse)
    {
      assert entries[..i + 1][..i] == entries[..i];
      if entries[i].None? {
        continue;
      }
      var ins := entries[i].value;
      spend := spend + ParseInsightValue(ins.spend, parse);
      impressions := impressions + ParseInsightValue(ins.impressions, parse);
      clicks := clicks + ParseInsightValue(ins.clicks, parse);
      reach := reach + ParseInsightValue(ins.reach, parse);
      conversations := conversations + ParseInsightValue(ins.conversations, parse);
    }
    assert entries[..|entries|] == entries;
    r := Derive(spend, impressions, clicks, reach, conversations);
  }

  /** The roll-up of an empty list: all zero, conversations absent. */
  lemma RollupEmpty(parse: FloatParser)
    ensures Rollup([], parse) == InsightTotals(0.0, 0.0, 0.0, 0.0, 0.0, 0.0, 0.0, None)
  {
  }

  /** The roll-up does not depend on the order of its input. */
  lemma RollupPermutation(a: seq<Option<InsightsData>>, b: seq<Option<InsightsData>>, parse: FloatParser)
    requires multiset(a) == multiset(b)
    ensures Rollup(a, parse) == Rollup(b, parse)
  {
    SumOfPermutation(a, b, e => Contribution(e, Spend, parse));
    SumOfPermutation(a, b, e => Contribution(e, Impressions, parse));
    SumOfPermutation(a, b, e => Contribution(e, Clicks, parse));
    SumOfPermutation(a, b, e => Contribution(e, Reach, parse));
    SumOfPermutation(a, b, e => Contribution(e, Conversations, parse));
  }

  /** Each rate is the inverse of the product it stands for (spend per
      click, per thousand impressions, clicks per hundred impressions),
      and zero when its denominator is not positive; conversations are
      reported exactly when their total is positive. */
  lemma RollupRates(entries: seq<Option<InsightsData>>, parse: FloatParser)
    ensures var r := Rollup(entries, parse);
      && (r.clicks > 0.0 ==> r.cpc * r.clicks == r.spend)
      && (r.clicks <= 0.0 ==> r.cpc == 0.0)
      && (r.impressions > 0.0 ==> r.cpm * r.impressions == r.spend * 1000.0)
      && (r.impressions > 0.0 ==> r.ctr * r.impressions == r.clicks * 100.0)
      && (r.impressions <= 0.0 ==> r.cpm == 0.0 && r.ctr == 0.0)
      && (r.conversations.Some? <==> Total(entries, Conversations, parse) > 0.0)
      && (r.conversations.Some? ==> r.conversations.value == Total(entries, Conversations, parse))
  {
  }

  /** Totals over a concatenation add up: rolling up two lists separately
      and adding gives the counters of the joint roll-up. */
  lemma TotalAppend(a: seq<Option<InsightsData>>, b: seq<Option<InsightsData>>, m: Metric, parse: FloatParser)
    ensures Total(a + b, m, parse) == Total(a, m, parse) + Total(b, m, parse)
  {
    SumOfAppend(a, b, e => Contribution(e, m, parse));
  }

  // ---------------------------------------------------------------------
  // Grouping by objective

  /** The grouping key: the objective, or "UNKNOWN" when it is null or empty. */
  function Key(c: Campaign): string {
    match c.objective
    case None => "UNKNOWN"
    case Some(o) => if o == "" then "UNKNOWN" else o
  }

  function ObjectiveOf(g: ObjectiveGroup): string {
    g.objective
  }

  function InsightsOf(cs: seq<Campaign>): (r: seq<Option<InsightsData>>)
    ensures |r| == |cs| && forall i :: 0 <= i < |cs| ==> r[i] == cs[i].insights
  {
    seq(|cs|, i requires 0 <= i < |cs| => cs[i].insights)
  }

  /** The `map` step: one group per key, in the order given, with its roll-up. */
  method BuildGroups(order: seq<string>, buckets: map<string, seq<Campaign>>, parse: FloatParser)
    returns (groups: seq<ObjectiveGroup>)
    requires forall k :: k in order ==> k in buckets
    ensures |groups| == |order|
    ensures forall m :: 0 <= m < |order| ==>
              && groups[m].objective == order[m]
              && groups[m].campaigns == buckets[order[m]]
              && groups[m].aggregatedInsights == Rollup(InsightsOf(buckets[order[m]]), parse)
  {
    groups := [];
    for j := 0 to |order|
      invariant |groups| == j
      invariant forall m :: 0 <= m < j ==>
                  && groups[m].objective == order[m]
                  && groups[m].campaigns == buckets[order[m]]
                  && groups[m].aggregatedInsights == Rollup(InsightsOf(buckets[order[m]]), parse)
    {
      var camps := buckets[order[j]];
      var agg := SumInsights(InsightsOf(camps), parse);
      groups := groups + [ObjectiveGroup(order[j], camps, agg)];
    }
  }

  /** `g` is the group of its key in `campaigns`: exactly the members with
      that key, in input order, and their roll-up. */
  predicate IsGroupOf(g: ObjectiveGroup, campaigns: seq<Campaign>, parse: FloatParser) {
    && g.campaigns == Members(campaigns, Key, g.objective)
    && g.aggregatedInsights == Rollup(InsightsOf(g.campaigns), parse)
  }

  function ObjectivesOf(groups: seq<ObjectiveGroup>): set<string> {
    set g | g in groups :: g.objective
  }

  /** Reordering a list of groups keeps their keys and their contents. */
  lemma ReorderedGroups(unsorted: seq<ObjectiveGroup>, groups: seq<ObjectiveGroup>,
                        campaigns: seq<Campaign>, parse: FloatParser)
    requires multiset(groups) == multiset(unsorted)
    requires forall g :: g in unsorted ==> IsGroupOf(g, campaigns, parse)
    ensures forall g :: g in groups ==> IsGroupOf(g, campaigns, parse)
    ensures ObjectivesOf(groups) == ObjectivesOf(unsorted)
  {
    forall g | g in groups ensures g in unsorted {
      assert g in multiset(unsorted);
    }
    forall g | g in unsorted ensures g in groups {
      assert g in multiset(groups);
    }
  }

  /** `groupCampaignsByObjective`: bucket the campaigns by key in one pass,
      build one group per key with its roll-up, then sort the groups by
      key under the `localeCompare` order `lt`. */
  method GroupCampaignsByObjective(campaigns: seq<Campaign>, parse: FloatParser, lt: (string, string) -> bool)
    returns (groups: seq<ObjectiveGroup>)
    requires StrictTotalOrder(lt)
    ensures ObjectivesOf(groups) == Keys(campaigns, Key)
    ensures StrictlySorted(groups, ObjectiveOf, lt)
    ensures forall g :: g in groups ==> IsGroupOf(g, campaigns, parse)
    ensures campaigns == [] <==> groups == []
  {
    var buckets, order := Bucket(campaigns, Key);
    var unsorted := BuildGroups(order, buckets, parse);
    assert DistinctKeys(unsorted, ObjectiveOf);
    forall g | g in unsorted ensures IsGroupOf(g, campaigns, parse) && g.objective in Keys(campaigns, Key) {
      var m :| 0 <= m < |unsorted| && unsorted[m] == g;
      assert order[m] in order;
    }
    assert ObjectivesOf(unsorted) == Keys(campaigns, Key) by {
      forall k | k in Keys(campaigns, Key) ensures k in ObjectivesOf(unsorted) {
        var m :| 0 <= m < |order| && order[m] == k;
        assert unsorted[m] in unsorted;
      }
    }
    groups := SortByKey(unsorted, ObjectiveOf, lt);
    SortPermutes(unsorted, ObjectiveOf, lt);
    SortSorted(unsorted, ObjectiveOf, lt);
    ReorderedGroups(unsorted, groups, campaigns, parse);
    if campaigns != [] {
      assert Key(campaigns[0]) in Keys(campaigns, Key);
    }
  }

  /** Every input campaign belongs to exactly one of the groups returned. */
  lemma ExactlyOneGroup(campaigns: seq<Campaign>, groups: seq<ObjectiveGroup>, c: Campaign,
                        parse: FloatParser, lt: (string, string) -> bool)
    requires StrictTotalOrder(lt)
    requires ObjectivesOf(groups) == Keys(campaigns, Key)
    requires StrictlySorted(groups, ObjectiveOf, lt)
    requires forall g :: g in groups ==> IsGroupOf(g, campaigns, parse)
    requires c in campaigns
    ensures exists i :: 0 <= i < |groups| && c in groups[i].campaigns
    ensures forall i, j ::
              (0 <= i < |groups| && 0 <= j < |groups| &&
               c in groups[i].campaigns && c in groups[j].campaigns) ==> i == j
  {
    assert Key(c) in Keys(campaigns, Key);
    var g :| g in groups && g.objective == Key(c);
    var i :| 0 <= i < |groups| && groups[i] == g;
    MembersPartition(campaigns, Key, c, Key(c));
    SortedDistinctKeys(groups, ObjectiveOf, lt);
    forall i, j | 0 <= i < |groups| && 0 <= j < |groups| &&
              c in groups[i].campaigns && c in groups[j].campaigns
      ensures i == j
    {
      assert groups[i] in groups && groups[j] in groups;
      MembersPartition(campaigns, Key, c, groups[i].objective);
      MembersPartition(campaigns, Key, c, groups[j].objective);
    }
  }
}
