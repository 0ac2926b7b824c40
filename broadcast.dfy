/** The report helpers and the delivery guards of the back end's Telegram
    broadcast (backend/src/app/api/modules/telegram/services/broadcast.py):
    label lookup with fallbacks, the period's date range, the roll-up of
    campaign insights, the grouping by objective, the per-objective count
    label, and the checks that decide whether a user's report is sent.
    The label texts, the number formatting and the message layout are not
    modelled. */
module Broadcast {
  import opened Wrappers
  import opened Text
  import opened Json
  import opened Calendar
  import opened Users
  import opened Sums
  import opened Sorting
  import opened Grouping
  import opened FacebookAuthGateway

  // ---------------------------------------------------------------------
  // Labels

  /** `_LABELS`: label key to locale to text; the texts are a parameter. */
  type LabelTable = map<string, map<string, string>>

  const LabelKeys: set<string> := {
    "period_today", "period_yesterday", "period_week", "period_month", "period_last30", "period_default",
    "spend", "impressions", "clicks", "cpc", "ctr", "reach", "conversations"}

  /** The shape of `_LABELS`: exactly its keys, each with both locales. */
  predicate WellFormedLabels(labels: LabelTable) {
    labels.Keys == LabelKeys && forall k :: k in labels ==> "ua" in labels[k] && "ru" in labels[k]
  }

  predicate IsLocale(l: string) {
    l == "ua" || l == "ru"
  }

  /** `_l(key, locale)`: an unknown key (or an empty entry) is its own
      label; otherwise the locale's text, then the Ukrainian one, then the key. */
  function Label(labels: LabelTable, key: string, locale: string): string {
    if key !in labels || labels[key] == map[] then key
    else if locale in labels[key] then labels[key][locale]
    else if "ua" in labels[key] then labels[key]["ua"]
    else key
  }

  /** `_period_label`. */
  function PeriodLabel(labels: LabelTable, period: string, locale: string): string {
    if "period_" + period in labels then Label(labels, "period_" + period, locale)
    else Label(labels, "period_default", locale)
  }

  /** With the table's own shape, a label is the text in the requested
      locale, an unknown key is returned as it is, and a known key missing
      the requested locale falls back to Ukrainian. */
  lemma LabelSpec(labels: LabelTable, key: string, locale: string)
    ensures key !in labels ==> Label(labels, key, locale) == key
    ensures key in labels && locale in labels[key] ==> Label(labels, key, locale) == labels[key][locale]
    ensures key in labels && locale !in labels[key] && "ua" in labels[key] ==>
            Label(labels, key, locale) == labels[key]["ua"]
    ensures WellFormedLabels(labels) && key in LabelKeys && IsLocale(locale) ==>
            Label(labels, key, locale) == labels[key][locale]
  {
  }

  /** The period label keys are exactly `period_` followed by one of the
      five named periods or `default`. */
  lemma PeriodKey(period: string)
    ensures "period_" + period in LabelKeys <==> period in {"today", "yesterday", "week", "month", "last30", "default"}
  {
    var key := "period_" + period;
    if key in LabelKeys {
      assert key[0] == 'p';
      if key == "period_today" { PrefixCancel("period_", period, "today"); }
      else if key == "period_yesterday" { PrefixCancel("period_", period, "yesterday"); }
      else if key == "period_week" { PrefixCancel("period_", period, "week"); }
      else if key == "period_month" { PrefixCancel("period_", period, "month"); }
      else if key == "period_last30" { PrefixCancel("period_", period, "last30"); }
      else if key == "period_default" { PrefixCancel("period_", period, "default"); }
    }
    if period == "today" { assert key == "period_today"; }
    else if period == "yesterday" { assert key == "period_yesterday"; }
    else if period == "week" { assert key == "period_week"; }
    else if period == "month" { assert key == "period_month"; }
    else if period == "last30" { assert key == "period_last30"; }
    else if period == "default" { assert key == "period_default"; }
  }

  lemma PrefixCancel(p: string, a: string, b: string)
    requires p + a == p + b
    ensures a == b
  {
    assert a == (p + a)[|p|..];
    assert b == (p + b)[|p|..];
  }

  /** The five named periods get their own label; every other period gets
      the default one. */
  lemma PeriodLabelSpec(labels: LabelTable, period: string, locale: string)
    requires WellFormedLabels(labels) && IsLocale(locale)
    ensures period in {"today", "yesterday", "week", "month", "last30", "default"} ==>
            "period_" + period in labels && PeriodLabel(labels, period, locale) == labels["period_" + period][locale]
    ensures period !in {"today", "yesterday", "week", "month", "last30", "default"} ==>
            PeriodLabel(labels, period, locale) == labels["period_default"][locale]
  {
    PeriodKey(period);
  }

  // ---------------------------------------------------------------------
  // Time ranges

  /** The first and last day `_build_time_range` reports for `period`, or
      None where `today - timedelta(...)` raises `OverflowError`. */
  function RangeDates(period: string, today: Date): Option<(Date, Date)>
    requires Calendar.Valid(today)
  {
    if period == "yesterday" then
      match MinusDays(today, 1)
      case None => None
      case Some(d) => Some((d, d))
    else if period == "week" then
      match MinusDays(today, 6)
      case None => None
      case Some(d) => Some((d, today))
    else if period == "month" then Some((MonthStart(today), today))
    else if period == "last30" then
      match MinusDays(today, 29)
      case None => None
      case Some(d) => Some((d, today))
    else Some((today, today))
  }

  /** `_build_time_range(period)` with `date.today()` passed in. */
  function BuildTimeRange(period: string, today: Date): Option<TimeRange>
    requires Calendar.Valid(today)
  {
    match RangeDates(period, today)
    case None => None
    case Some(r) => Some(TimeRange(Iso(r.0), Iso(r.1)))
  }

  /** Each period's range: yesterday is one day, week and last30 end today
      and span 7 and 30 days, month runs from the first of the month, any
      other period is today alone; the first day is never after the last.
      Only a date in year 1 can make the range undefined. */
  lemma RangeDatesSpec(period: string, today: Date)
    requires Calendar.Valid(today)
    ensures today.year >= 2 ==> RangeDates(period, today).Some?
    ensures RangeDates(period, today).Some? ==>
      var (since, until) := RangeDates(period, today).value;
      && Calendar.Valid(since) && Calendar.Valid(until) && NotAfter(since, until)
      && (period == "yesterday" ==> since == until && PlusDays(since, 1) == Some(today))
      && (period == "week" ==> until == today && PlusDays(since, 6) == Some(today))
      && (period == "month" ==> since == MonthStart(today) && until == today)
      && (period == "last30" ==> until == today && PlusDays(since, 29) == Some(today))
      && (period !in {"yesterday", "week", "month", "last30"} ==> since == today && until == today)
  {
    var n := if period == "yesterday" then 1 else if period == "week" then 6 else if period == "last30" then 29 else 0;
    if today.year >= 2 {
      MinusDaysDefined(today, n);
    }
    if MinusDays(today, n).Some? {
      MinusThenPlus(today, n);
    }
    MonthStartSpec(today);
  }

  // ---------------------------------------------------------------------
  // Roll-up

  /** The entries of the dict `_aggregate` returns, by name. */
  datatype Metric = Spend | Impressions | Clicks | Reach | Conversations | Ctr | Cpm | Cpc

  function Name(m: Metric): string {
    match m
    case Spend => "spend"
    case Impressions => "impressions"
    case Clicks => "clicks"
    case Reach => "reach"
    case Conversations => "conversations"
    case Ctr => "ctr"
    case Cpm => "cpm"
    case Cpc => "cpc"
  }

  /** The counters `_aggregate` sums, in the order of its dict. */
  const Counters: seq<Metric> := [Spend, Impressions, Clicks, Reach, Conversations]

  const CounterSet: set<Metric> := {Spend, Impressions, Clicks, Reach, Conversations}

  /** `c.get("insights") or {}`. A truthy non-dict value is not modelled. */
  function InsightsObject(c: Object): Object {
    match Get(c, "insights")
    case Dict(fields) => fields
    case _ => map[]
  }

  /** What campaign `c` adds to counter `m`: `float(ins.get(key) or 0)`,
      or nothing when `float` raises. */
  function Contribution(c: Object, m: Metric, parse: PyFloat): real {
    FloatOrZero(Get(InsightsObject(c), Name(m)), parse).GetOr(0.0)
  }

  function Total(cs: seq<Object>, m: Metric, parse: PyFloat): real {
    SumOf(cs, c => Contribution(c, m, parse))
  }

  /** The five counter totals. */
  function Totals(cs: seq<Object>, parse: PyFloat): (t: map<Metric, real>)
    ensures t.Keys == CounterSet
  {
    map m | m in CounterSet :: Total(cs, m, parse)
  }

  /** The three rates, each guarded by a non-zero denominator. */
  function WithRates(t: map<Metric, real>): map<Metric, real>
    requires Spend in t && Impressions in t && Clicks in t
  {
    t[Ctr := Ratio(t[Clicks], t[Impressions], 100.0)]
     [Cpm := Ratio(t[Spend], t[Impressions], 1000.0)]
     [Cpc := Ratio(t[Spend], t[Clicks], 1.0)]
  }

  /** `x / y * k if y else 0` (for cpc the factor is 1). */
  function Ratio(x: real, y: real, k: real): real {
    if y != 0.0 then x / y * k else 0.0
  }

  /** The dict `_aggregate` returns. */
  function AggregateOf(cs: seq<Object>, parse: PyFloat): map<Metric, real> {
    WithRates(Totals(cs, parse))
  }

  /** The inner loop of `_aggregate`: each counter of `t` grows by what
      campaign `c` contributes to it. */
  method AddCampaign(t0: map<Metric, real>, c: Object, parse: PyFloat) returns (t: map<Metric, real>)
    requires t0.Keys == CounterSet
    ensures t.Keys == CounterSet
    ensures forall m :: m in CounterSet ==> t[m] == t0[m] + Contribution(c, m, parse)
  {
    t := t0;
    var ins := InsightsObject(c);
    for j := 0 to |Counters|
      invariant t.Keys == CounterSet
      invariant forall k :: 0 <= k < |Counters| ==>
                  t[Counters[k]] == t0[Counters[k]] + (if k < j then Contribution(c, Counters[k], parse) else 0.0)
    {
      var key := Counters[j];
      var v := FloatOrZero(Get(ins, Name(key)), parse);
      if v.Some? {
        t := t[key := t[key] + v.value];
      }
    }
    forall m | m in CounterSet
      ensures t[m] == t0[m] + Contribution(c, m, parse)
    {
      var k := if m == Spend then 0 else if m == Impressions then 1 else if m == Clicks then 2 else if m == Reach then 3 else 4;
      assert Counters[k] == m;
    }
  }

  /** `_aggregate`: a running total per counter, updated campaign by
      campaign, then the three rates. */
  method Aggregate(campaigns: seq<Object>, parse: PyFloat) returns (t: map<Metric, real>)
    ensures t == AggregateOf(campaigns, parse)
  {
    t := map[Spend := 0.0, Impressions := 0.0, Clicks := 0.0, Reach := 0.0, Conversations := 0.0];
    TotalsEmpty(parse);
    assert campaigns[..0] == [];
    for i := 0 to |campaigns|
      invariant t == Totals(campaigns[..i], parse)
    {
      var before := t;
      t := AddCampaign(t, campaigns[i], parse);
      TotalsStep(campaigns, i, parse, before, t);
    }
    assert campaigns[..|campaigns|] == campaigns;
    assert t == Totals(campaigns, parse);
    var impressions, clicks, spend := t[Impressions], t[Clicks], t[Spend];
    t := t[Ctr := Ratio(clicks, impressions, 100.0)];
    t := t[Cpm := Ratio(spend, impressions, 1000.0)];
    t := t[Cpc := Ratio(spend, clicks, 1.0)];
  }

  /** A campaign without insights, a falsy field and a value `float`
      cannot read all count as zero; otherwise the field's number counts. */
  lemma ContributionSpec(c: Object, m: Metric, parse: PyFloat)
    ensures !Get(c, "insights").Dict? ==> Contribution(c, m, parse) == 0.0
    ensures !Truthy(Get(InsightsObject(c), Name(m))) ==> Contribution(c, m, parse) == 0.0
    ensures ToFloat(Get(InsightsObject(c), Name(m)), parse).None? ==> Contribution(c, m, parse) == 0.0
    ensures Truthy(Get(InsightsObject(c), Name(m))) && ToFloat(Get(InsightsObject(c), Name(m)), parse).Some? ==>
            Contribution(c, m, parse) == ToFloat(Get(InsightsObject(c), Name(m)), parse).value
  {
  }

  /** `x / y * k`, multiplied back by `y`, is `x * k`. */
  lemma ScaledQuotient(x: real, y: real, k: real)
    requires y != 0.0
    ensures x / y * k * y == x * k
  {
    assert x / y * y == x;
    calc {
      x / y * k * y;
      x / y * y * k;
      x * k;
    }
  }

  /** Each rate is the inverse of the product it stands for, and zero
      when its denominator is zero. */
  predicate RatesHold(r: map<Metric, real>)
    requires r.Keys == CounterSet + {Ctr, Cpm, Cpc}
  {
    && (r[Impressions] != 0.0 ==> r[Ctr] * r[Impressions] == r[Clicks] * 100.0)
    && (r[Impressions] != 0.0 ==> r[Cpm] * r[Impressions] == r[Spend] * 1000.0)
    && (r[Impressions] == 0.0 ==> r[Ctr] == 0.0 && r[Cpm] == 0.0)
    && (r[Clicks] != 0.0 ==> r[Cpc] * r[Clicks] == r[Spend])
    && (r[Clicks] == 0.0 ==> r[Cpc] == 0.0)
  }

  /** The rates `WithRates` adds to the counter totals. */
  lemma WithRatesSpec(t: map<Metric, real>)
    requires t.Keys == CounterSet
    ensures WithRates(t).Keys == CounterSet + {Ctr, Cpm, Cpc}
    ensures forall m :: m in CounterSet ==> WithRates(t)[m] == t[m]
    ensures RatesHold(WithRates(t))
  {
    var r := WithRates(t);
    if t[Impressions] != 0.0 {
      ScaledQuotient(t[Clicks], t[Impressions], 100.0);
      ScaledQuotient(t[Spend], t[Impressions], 1000.0);
    }
    if t[Clicks] != 0.0 {
      ScaledQuotient(t[Spend], t[Clicks], 1.0);
    }
  }

  /** The result has the five counters, each the total over the
      campaigns, and the three rates derived from them. */
  lemma {:induction false} AggregateRates(cs: seq<Object>, parse: PyFloat)
    ensures AggregateOf(cs, parse).Keys == CounterSet + {Ctr, Cpm, Cpc}
    ensures forall m :: m in CounterSet ==> AggregateOf(cs, parse)[m] == Total(cs, m, parse)
    ensures RatesHold(AggregateOf(cs, parse))
  {
    WithRatesSpec(Totals(cs, parse));
  }

  /** The roll-up does not depend on the order of the campaigns. */
  lemma AggregatePermutation(a: seq<Object>, b: seq<Object>, parse: PyFloat)
    requires multiset(a) == multiset(b)
    ensures AggregateOf(a, parse) == AggregateOf(b, parse)
  {
    forall m | m in CounterSet ensures Total(a, m, parse) == Total(b, m, parse) {
      SumOfPermutation(a, b, c => Contribution(c, m, parse));
    }
    assert Totals(a, parse) == Totals(b, parse);
  }

  /** Rolling up two lists one after the other adds their counters. */
  /** With no campaigns every counter is zero. */
  lemma TotalsEmpty(parse: PyFloat)
    ensures Totals([], parse) == map[Spend := 0.0, Impressions := 0.0, Clicks := 0.0, Reach := 0.0, Conversations := 0.0]
  {
  }

  /** One more campaign adds its contribution to each total. */
  lemma TotalsStep(cs: seq<Object>, i: nat, parse: PyFloat, t0: map<Metric, real>, t: map<Metric, real>)
    requires i < |cs|
    requires t0 == Totals(cs[..i], parse)
    requires t.Keys == CounterSet
    requires forall m :: m in CounterSet ==> t[m] == t0[m] + Contribution(cs[i], m, parse)
    ensures t == Totals(cs[..i + 1], parse)
  {
    assert cs[..i + 1][..i] == cs[..i];
    forall m | m in CounterSet
      ensures t[m] == Totals(cs[..i + 1], parse)[m]
    {
    }
  }

  lemma TotalAppend(a: seq<Object>, b: seq<Object>, m: Metric, parse: PyFloat)
    ensures Total(a + b, m, parse) == Total(a, m, parse) + Total(b, m, parse)
  {
    SumOfAppend(a, b, c => Contribution(c, m, parse));
  }

  // ---------------------------------------------------------------------
  // Grouping by objective

  /** `c.get("objective") or "OTHER"`. A truthy non-string objective is not
      modelled. */
  function ObjectiveKey(c: Object): string {
    match Get(c, "objective")
    case Str(s) => if s != "" then s else "OTHER"
    case _ => "OTHER"
  }

  datatype ObjectiveGroup = ObjectiveGroup(objective: string, campaigns: seq<Object>)

  function ObjectiveOf(g: ObjectiveGroup): string {
    g.objective
  }

  /** Python compares `str` keys by code point: a strict total order. */
  lemma OrdinalStrictTotalOrder()
    ensures StrictTotalOrder(OrdinalLess)
  {
    forall a ensures !OrdinalLess(a, a) {
      OrdinalIrreflexive(a);
    }
    forall a, b, c | OrdinalLess(a, b) && OrdinalLess(b, c) ensures OrdinalLess(a, c) {
      OrdinalTransitive(a, b, c);
    }
    forall a, b | a != b ensures OrdinalLess(a, b) || OrdinalLess(b, a) {
      OrdinalTotal(a, b);
    }
  }

  /** `by_obj.items()`: one pair per key, in the dict's order. */
  method Items(order: seq<string>, buckets: map<string, seq<Object>>) returns (items: seq<ObjectiveGroup>)
    requires forall k :: k in order ==> k in buckets
    ensures |items| == |order|
    ensures forall m :: 0 <= m < |order| ==> items[m] == ObjectiveGroup(order[m], buckets[order[m]])
  {
    items := [];
    for j := 0 to |order|
      invariant |items| == j
      invariant forall m :: 0 <= m < j ==> items[m] == ObjectiveGroup(order[m], buckets[order[m]])
    {
      items := items + [ObjectiveGroup(order[j], buckets[order[j]])];
    }
  }

  function ObjectivesOf(groups: seq<ObjectiveGroup>): set<string> {
    set g | g in groups :: g.objective
  }

  /** `sorted(_group_by_objective(campaigns).items())`: the groups built by
      `setdefault(...).append`, visited in ascending key order. */
  method SortedGroups(campaigns: seq<Object>) returns (groups: seq<ObjectiveGroup>)
    ensures ObjectivesOf(groups) == Keys(campaigns, ObjectiveKey)
    ensures StrictlySorted(groups, ObjectiveOf, OrdinalLess)
    ensures forall g :: g in groups ==> g.campaigns == Members(campaigns, ObjectiveKey, g.objective)
  {
    var buckets, order := Bucket(campaigns, ObjectiveKey);
    var items := Items(order, buckets);
    forall g | g in items ensures g.campaigns == Members(campaigns, ObjectiveKey, g.objective) {
      var m :| 0 <= m < |items| && items[m] == g;
      assert order[m] in order;
    }
    assert ObjectivesOf(items) == Keys(campaigns, ObjectiveKey) by {
      forall k | k in Keys(campaigns, ObjectiveKey) ensures k in ObjectivesOf(items) {
        var m :| 0 <= m < |order| && order[m] == k;
        assert items[m] in items;
      }
      forall g | g in items ensures g.objective in Keys(campaigns, ObjectiveKey) {
        var m :| 0 <= m < |items| && items[m] == g;
        assert order[m] in order;
      }
    }
    groups := SortByKey(items, ObjectiveOf, OrdinalLess);
    SortPermutes(items, ObjectiveOf, OrdinalLess);
    OrdinalStrictTotalOrder();
    SortSorted(items, ObjectiveOf, OrdinalLess);
    SameElements(items, groups, campaigns);
  }

  /** Reordering keeps the groups' keys and contents. */
  lemma SameElements(items: seq<ObjectiveGroup>, groups: seq<ObjectiveGroup>, campaigns: seq<Object>)
    requires multiset(groups) == multiset(items)
    requires forall g :: g in items ==> g.campaigns == Members(campaigns, ObjectiveKey, g.objective)
    ensures forall g :: g in groups ==> g.campaigns == Members(campaigns, ObjectiveKey, g.objective)
    ensures ObjectivesOf(groups) == ObjectivesOf(items)
  {
    forall g | g in groups ensures g in items {
      assert g in multiset(items);
    }
    forall g | g in items ensures g in groups {
      assert g in multiset(groups);
    }
  }

  /** In the sorted groups every campaign sits in the group of its own key
      and in no other. */
  lemma GroupsPartition(campaigns: seq<Object>, groups: seq<ObjectiveGroup>, c: Object, g: ObjectiveGroup)
    requires forall h :: h in groups ==> h.campaigns == Members(campaigns, ObjectiveKey, h.objective)
    requires c in campaigns && g in groups
    ensures c in g.campaigns <==> g.objective == ObjectiveKey(c)
  {
    MembersPartition(campaigns, ObjectiveKey, c, g.objective);
  }

  // ---------------------------------------------------------------------
  // Count label

  predicate IsActive(c: Object) {
    Get(c, "status") == Str("ACTIVE")
  }

  function ActiveCount(cs: seq<Object>): (n: nat)
    ensures n <= |cs|
  {
    if cs == [] then 0 else ActiveCount(cs[..|cs| - 1]) + (if IsActive(cs[|cs| - 1]) then 1 else 0)
  }

  /** The `(...)` part of `_obj_block`'s heading. */
  function CountLabel(cs: seq<Object>): string {
    var active := ActiveCount(cs);
    var paused := |cs| - active;
    if paused > 0 && active > 0 then Dec(active) + " ✅ / " + Dec(paused) + " ⏸"
    else if paused > 0 then Dec(|cs|) + " ⏸"
    else Dec(|cs|)
  }

  lemma {:induction false} ActiveCountAppend(a: seq<Object>, b: seq<Object>)
    ensures ActiveCount(a + b) == ActiveCount(a) + ActiveCount(b)
    decreases |b|
  {
    if b != [] {
      assert (a + b)[..|a + b| - 1] == a + b[..|b| - 1];
      ActiveCountAppend(a, b[..|b| - 1]);
    } else {
      assert a + b == a;
    }
  }

  /** The active count is the number of campaigns with status ACTIVE: zero
      when none is, all of them when all are, and it does not depend on
      the order of the list. */
  lemma {:induction false} ActiveCountSpec(cs: seq<Object>)
    ensures (forall c :: c in cs ==> !IsActive(c)) <==> ActiveCount(cs) == 0
    ensures (forall c :: c in cs ==> IsActive(c)) <==> ActiveCount(cs) == |cs|
  {
    ActiveCountByIndex(cs);
  }

  /** The two extremes of the active count, stated over positions. */
  lemma {:induction false} ActiveCountByIndex(cs: seq<Object>)
    ensures (forall i :: 0 <= i < |cs| ==> !IsActive(cs[i])) <==> ActiveCount(cs) == 0
    ensures (forall i :: 0 <= i < |cs| ==> IsActive(cs[i])) <==> ActiveCount(cs) == |cs|
  {
    if cs != [] {
      var n := |cs| - 1;
      var init := cs[..n];
      ActiveCountByIndex(init);
      assert forall i :: 0 <= i < n ==> init[i] == cs[i];
      assert ActiveCount(cs) == ActiveCount(init) + (if IsActive(cs[n]) then 1 else 0);
      assert ActiveCount(init) <= n;
    }
  }

  /** The label shows "active ✅ / paused ⏸" when both kinds occur, the
      total with ⏸ when none is active, and the bare total when none is
      paused. */
  lemma {:induction false} CountLabelSpec(cs: seq<Object>)
    ensures (exists c :: c in cs && IsActive(c)) && (exists c :: c in cs && !IsActive(c)) ==>
            CountLabel(cs) == Dec(ActiveCount(cs)) + " ✅ / " + Dec(|cs| - ActiveCount(cs)) + " ⏸"
    ensures cs != [] && (forall c :: c in cs ==> !IsActive(c)) ==> CountLabel(cs) == Dec(|cs|) + " ⏸"
    ensures (forall c :: c in cs ==> IsActive(c)) ==> CountLabel(cs) == Dec(|cs|)
  {
    ActiveCountSpec(cs);
    var active := ActiveCount(cs);
    if active == 0 {
      assert CountLabel(cs) == if cs == [] then Dec(0) else Dec(|cs|) + " ⏸";
    } else if active == |cs| {
      assert CountLabel(cs) == Dec(|cs|);
    } else {
      assert CountLabel(cs) == Dec(active) + " ✅ / " + Dec(|cs| - active) + " ⏸";
    }
  }

  // ---------------------------------------------------------------------
  // Delivery guards

  /** Whose Facebook token a user's report is fetched with: an admin's own,
      anyone else's creator's. */
  function TokenOwner(user: User): Option<UserId> {
    if user.isAdmin then Some(user.id) else user.createdById
  }

  /** `_get_token_for_user`: the owner's stored long-lived token, or None
      when there is no owner, no record, or an empty token. */
  function GetTokenForUser(user: User, records: AuthTable): Option<string> {
    match TokenOwner(user)
    case None => None
    case Some(owner) =>
      match ByOwner(records, owner)
      case None => None
      case Some(auth) => if auth.longToken.Some? && auth.longToken.value != "" then auth.longToken else None
  }

  lemma GetTokenForUserSpec(user: User, records: AuthTable)
    ensures GetTokenForUser(user, records).Some? <==>
            TokenOwner(user).Some? && TokenOwner(user).value in records &&
            records[TokenOwner(user).value].longToken.Some? && records[TokenOwner(user).value].longToken.value != ""
    ensures GetTokenForUser(user, records).Some? ==>
            GetTokenForUser(user, records) == records[TokenOwner(user).value].longToken &&
            GetTokenForUser(user, records).value != ""
    ensures user.isAdmin ==> GetTokenForUser(user, records) == GetTokenForUser(user.(createdById := None), records)
  {
  }

  /** Building and sending the report once the guards have passed
      (`_send_admin_report` / `_send_user_report`): whether it was sent, or
      None when it raised. Fetching and sending are not modelled. */
  type ReportSender = (User, string, TimeRange) -> Option<bool>

  /** `send_report_for_user`: whether the report went out. No chat or no
      token means no report; an `OverflowError` from the date range is not
      caught; a user without an ad account gets no report; anything the
      sender raises counts as not sent. */
  function SendReportForUser(user: User, records: AuthTable, period: string, today: Date, send: ReportSender)
    : Result<bool, string>
    requires Calendar.Valid(today)
  {
    if !HasChat(user) then Success(false)
    else match GetTokenForUser(user, records)
      case None => Success(false)
      case Some(token) =>
        match BuildTimeRange(period, today)
        case None => Failure("OverflowError")
        case Some(range) =>
          if !user.isAdmin && (user.adAccountId.None? || user.adAccountId.value == "") then Success(false)
          else Success(send(user, token, range).GetOr(false))
  }

  /** A report goes out only to a user with a chat and a token, over the
      period's range, when the sender succeeds; the call raises only on a
      date in year 1. Conversely, a linked user with a token and a range is
      handed to the sender when an admin or holding an ad account, and gets
      no report otherwise. */
  lemma SendReportSpec(user: User, records: AuthTable, period: string, today: Date, send: ReportSender)
    requires Calendar.Valid(today)
    ensures SendReportForUser(user, records, period, today, send) == Success(true) ==>
            && HasChat(user) && GetTokenForUser(user, records).Some?
            && BuildTimeRange(period, today).Some?
            && send(user, GetTokenForUser(user, records).value, BuildTimeRange(period, today).value) == Some(true)
    ensures SendReportForUser(user, records, period, today, send).Failure? ==> today.year == 1
    ensures !HasChat(user) || GetTokenForUser(user, records).None? ==>
            SendReportForUser(user, records, period, today, send) == Success(false)
    ensures HasChat(user) && GetTokenForUser(user, records).Some? && BuildTimeRange(period, today).Some?
            && (user.isAdmin || (user.adAccountId.Some? && user.adAccountId.value != "")) ==>
            SendReportForUser(user, records, period, today, send)
              == Success(send(user, GetTokenForUser(user, records).value, BuildTimeRange(period, today).value).GetOr(false))
    ensures HasChat(user) && GetTokenForUser(user, records).Some? && BuildTimeRange(period, today).Some?
            && !user.isAdmin && (user.adAccountId.None? || user.adAccountId.value == "") ==>
            SendReportForUser(user, records, period, today, send) == Success(false)
  {
    RangeDatesSpec(period, today);
  }

  /** `send_daily_reports`' locale: the user's own when supported, else Ukrainian. */
  function DailyLocale(user: User): (l: string)
    ensures IsLocale(l)
    ensures user.locale.Some? && IsLocale(user.locale.value) ==> l == user.locale.value
    ensures !(user.locale == Some("ua") || user.locale == Some("ru")) ==> l == "ua"
  {
    if user.locale == Some("ua") || user.locale == Some("ru") then user.locale.value else "ua"
  }
}
