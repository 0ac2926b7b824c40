/** The Graph API client of the back end (backend/src/app/clients/facebook.py):
    cursor pagination over a sequence of server responses, the cleaning and
    indexing of insight rows, and the joins that attach insights to
    campaigns and ad sets. The server is an oracle: the i-th request made by
    a pagination loop is answered by the i-th page of a given sequence. */
module FacebookClient {
  import opened Wrappers
  import opened Json

  /** `FacebookAPIError` with the `code` of the error object (Null when it
      has none), or the `ValueError`/`TypeError` raised by `float(...)`. */
  datatype ClientError = ApiError(code: Value) | ConversionError

  // ---------------------------------------------------------------------
  // Pagination
  // ---------------------------------------------------------------------

  /** The shape of a Graph API response the loop can read: an error
      object, or a list of objects under `data` and an object under
      `paging`, either of which may be absent. */
  predicate WellShapedPage(p: Object) {
    && ("error" in p ==> p["error"].Dict?)
    && ("error" !in p ==> "data" in p ==> p["data"].List? && forall v :: v in p["data"].items ==> v.Dict?)
    && ("error" !in p ==> "paging" in p ==> p["paging"].Dict?)
  }

  function Fields(vs: seq<Value>): (os: seq<Object>)
    requires forall v :: v in vs ==> v.Dict?
    ensures |os| == |vs|
    ensures forall i :: 0 <= i < |vs| ==> os[i] == vs[i].fields
  {
    if vs == [] then [] else [vs[0].fields] + Fields(vs[1..])
  }

  /** `data.get("data", [])`. */
  function DataOf(p: Object): seq<Object>
    requires WellShapedPage(p) && "error" !in p
  {
    if "data" in p then Fields(p["data"].items) else []
  }

  /** `data.get("paging", {}).get("next")` is truthy: there is another page. */
  predicate HasNext(p: Object)
    requires WellShapedPage(p) && "error" !in p
  {
    "paging" in p && Truthy(Get(p["paging"].fields, "next"))
  }

  function ErrorCode(p: Object): Value
    requires WellShapedPage(p) && "error" in p
  {
    Get(p["error"].fields, "code")
  }

  /** A page after which the loop makes no further request. */
  predicate Terminal(p: Object)
    requires WellShapedPage(p)
  {
    "error" in p || !HasNext(p)
  }

  /** The server's answers end: some page is terminal, and every page up
      to it is well shaped. */
  predicate Ends(pages: seq<Object>) {
    && pages != []
    && WellShapedPage(pages[0])
    && (Terminal(pages[0]) || Ends(pages[1..]))
  }

  /** `_fetch_with_pagination`, page by page. */
  function Fetched(pages: seq<Object>): Result<seq<Object>, ClientError>
    requires Ends(pages)
    decreases |pages|
  {
    var p := pages[0];
    if "error" in p then Failure(ApiError(ErrorCode(p)))
    else if !HasNext(p) then Success(DataOf(p))
    else Prepend(DataOf(p), Fetched(pages[1..]))
  }

  function Prepend(items: seq<Object>, r: Result<seq<Object>, ClientError>): Result<seq<Object>, ClientError> {
    match r
    case Success(rest) => Success(items + rest)
    case Failure(e) => Failure(e)
  }

  lemma PrependNil(r: Result<seq<Object>, ClientError>)
    ensures Prepend([], r) == r
  {
    if r.Success? {
      assert [] + r.value == r.value;
    }
  }

  lemma PrependAssoc(a: seq<Object>, b: seq<Object>, r: Result<seq<Object>, ClientError>)
    ensures Prepend(a, Prepend(b, r)) == Prepend(a + b, r)
  {
    if r.Success? {
      assert a + (b + r.value) == a + b + r.value;
    }
  }

  /** The index of the page the loop stops at: the first terminal page. */
  function Stop(pages: seq<Object>): (i: nat)
    requires Ends(pages)
    ensures i < |pages| && WellShapedPage(pages[i]) && Terminal(pages[i])
    ensures forall j :: 0 <= j < i ==> WellShapedPage(pages[j]) && "error" !in pages[j] && HasNext(pages[j])
    decreases |pages|
  {
    if Terminal(pages[0]) then 0 else 1 + Stop(pages[1..])
  }

  /** The `data` lists of `pages`, concatenated in page order. */
  function Flatten(pages: seq<Object>): seq<Object>
    requires forall p :: p in pages ==> WellShapedPage(p) && "error" !in p
  {
    if pages == [] then [] else DataOf(pages[0]) + Flatten(pages[1..])
  }

  /** The loop `while url: ...`: items accumulate until a page without a
      next link; an error page raises and the items gathered so far are
      lost. */
  method FetchWithPagination(pages: seq<Object>) returns (r: Result<seq<Object>, ClientError>)
    requires Ends(pages)
    ensures r == Fetched(pages)
  {
    var items: seq<Object> := [];
    var i := 0;
    var more := true;
    assert pages[0..] == pages;
    PrependNil(Fetched(pages));
    while more
      invariant 0 <= i <= |pages|
      invariant more ==> Ends(pages[i..]) && Fetched(pages) == Prepend(items, Fetched(pages[i..]))
      invariant !more ==> Fetched(pages) == Success(items)
      decreases |pages| - i, more
    {
      var data := pages[i];
      assert pages[i..][1..] == pages[i + 1..];
      if "error" in data {
        return Failure(ApiError(ErrorCode(data)));
      }
      if HasNext(data) {
        PrependAssoc(items, DataOf(data), Fetched(pages[i + 1..]));
      }
      items := items + DataOf(data);
      more := HasNext(data);
      i := i + 1;
    }
    return Success(items);
  }

  /** The result of the loop, stated by where it stops: the error of the
      stopping page, or every page's `data` up to and including it. */
  lemma {:induction false} FetchedSpec(pages: seq<Object>)
    requires Ends(pages)
    ensures var s := Stop(pages);
      Fetched(pages) ==
        if "error" in pages[s] then Failure(ApiError(ErrorCode(pages[s])))
        else Success(Flatten(pages[..s + 1]))
    decreases |pages|
  {
    var p := pages[0];
    var s := Stop(pages);
    if !Terminal(p) {
      FetchedSpec(pages[1..]);
      if "error" !in pages[s] {
        assert pages[..s + 1][1..] == pages[1..][..s];
      }
    } else if "error" !in p {
      assert pages[..1][1..] == [];
      assert DataOf(p) + [] == DataOf(p);
    }
  }

  // ---------------------------------------------------------------------
  // Insight rows
  // ---------------------------------------------------------------------

  /** The two levels at which insights are joined. */
  datatype Level = CampaignLevel | AdsetLevel

  /** The key that names an insight row's owner. */
  function IdKey(level: Level): string {
    match level
    case CampaignLevel => "campaign_id"
    case AdsetLevel => "adset_id"
  }

  const ConversationAction: string := "onsite_conversion.messaging_conversation_started_7d"

  /** Shape of an insight row as the Graph API returns it: an owner id
      that is a string when present, and `actions` a list of objects. */
  predicate RowShape(level: Level, r: Object) {
    && (!Truthy(Get(r, IdKey(level))) || Get(r, IdKey(level)).Str?)
    && (level == CampaignLevel && Truthy(Get(r, "actions")) ==>
          Get(r, "actions").List? && forall a :: a in Get(r, "actions").items ==> a.Dict?)
  }

  /** `insight.get(<id key>)`, when truthy. */
  function IdOf(level: Level, r: Object): Option<string>
    requires RowShape(level, r)
  {
    if Truthy(Get(r, IdKey(level))) then Some(Get(r, IdKey(level)).s) else None
  }

  predicate IsConversation(a: Value)
    requires a.Dict?
  {
    Get(a.fields, "action_type") == Str(ConversationAction)
  }

  /** The `value` of the first messaging-conversation action, or None. */
  function FirstConversation(actions: seq<Value>): Value
    requires forall a :: a in actions ==> a.Dict?
  {
    if actions == [] then Null
    else if IsConversation(actions[0]) then Get(actions[0].fields, "value")
    else FirstConversation(actions[1..])
  }

  /** The inner `for a in actions` loop with its `break`. */
  method ConversationsIn(actions: seq<Value>) returns (conversations: Value)
    requires forall a :: a in actions ==> a.Dict?
    ensures conversations == FirstConversation(actions)
  {
    conversations := Null;
    var i := 0;
    while i < |actions|
      invariant 0 <= i <= |actions|
      invariant FirstConversation(actions) == FirstConversation(actions[i..])
    {
      assert actions[i..][1..] == actions[i + 1..];
      if IsConversation(actions[i]) {
        conversations := Get(actions[i].fields, "value");
        return;
      }
      i := i + 1;
    }
  }

  lemma {:induction false} FirstConversationSpec(actions: seq<Value>)
    requires forall a :: a in actions ==> a.Dict?
    ensures (forall i :: 0 <= i < |actions| ==> !IsConversation(actions[i])) ==> FirstConversation(actions) == Null
    ensures forall i :: 0 <= i < |actions| && IsConversation(actions[i]) &&
                        (forall j :: 0 <= j < i ==> !IsConversation(actions[j])) ==>
                        FirstConversation(actions) == Get(actions[i].fields, "value")
  {
    if actions != [] {
      FirstConversationSpec(actions[1..]);
      forall i | 0 <= i < |actions| && IsConversation(actions[i]) &&
                 (forall j :: 0 <= j < i ==> !IsConversation(actions[j]))
        ensures FirstConversation(actions) == Get(actions[i].fields, "value")
      {
        if i > 0 {
          assert actions[i] == actions[1..][i - 1];
          assert forall j :: 0 <= j < i - 1 ==> !IsConversation(actions[1..][j]) by {
            forall j | 0 <= j < i - 1
              ensures !IsConversation(actions[1..][j])
            {
              assert actions[1..][j] == actions[j + 1];
            }
          }
        }
      }
      if forall i :: 0 <= i < |actions| ==> !IsConversation(actions[i]) {
        assert forall i :: 0 <= i < |actions| - 1 ==> actions[1..][i] == actions[i + 1];
      }
    }
  }

  /** The keys popped from a row before it is stored. */
  function Dropped(level: Level): set<string> {
    match level
    case CampaignLevel => {"date_start", "date_stop", "campaign_id", "actions", "cost_per_action_type"}
    case AdsetLevel => {"date_start", "date_stop", "adset_id"}
  }

  /** A cleaned copy of an insight row: the dropped keys removed and, for
      campaigns, `conversations` added. */
  function Clean(level: Level, r: Object): Object
    requires RowShape(level, r)
  {
    match level
    case CampaignLevel =>
      var actions := Get(r, "actions");
      (r - Dropped(level))["conversations" := if Truthy(actions) then FirstConversation(actions.items) else Null]
    case AdsetLevel => r - Dropped(level)
  }

  /** What the cleaning keeps, drops and adds. A cleaned campaign row
      always holds `conversations`, so the `if cleaned` test never fails. */
  lemma CleanSpec(level: Level, r: Object)
    requires RowShape(level, r)
    ensures forall k :: k in Dropped(level) && k != "conversations" ==> k !in Clean(level, r)
    ensures forall k :: k in r && k !in Dropped(level) && (level == CampaignLevel ==> k != "conversations") ==>
                        k in Clean(level, r) && Clean(level, r)[k] == r[k]
    ensures level == CampaignLevel ==> "conversations" in Clean(level, r) && Clean(level, r) != map[]
    ensures level == CampaignLevel ==>
              Clean(level, r)["conversations"] ==
                if Truthy(Get(r, "actions")) then FirstConversation(Get(r, "actions").items) else Null
    ensures level == AdsetLevel ==> Clean(level, r).Keys == r.Keys - Dropped(level)
  {
  }

  /** The dict of cleaned rows by owner id, as the loop leaves it: rows
      are taken in order, so the last row for an id wins. */
  function IndexOf(level: Level, rows: seq<Object>): map<string, Object>
    requires forall r :: r in rows ==> RowShape(level, r)
  {
    if rows == [] then map[]
    else
      var index := IndexOf(level, rows[..|rows| - 1]);
      var r := rows[|rows| - 1];
      match IdOf(level, r)
      case None => index
      case Some(id) =>
        var cleaned := Clean(level, r);
        if cleaned != map[] then index[id := cleaned] else index
  }

  /** The indexing loop of `get_campaigns` and `get_adsets`. */
  method BuildIndex(level: Level, rows: seq<Object>) returns (index: map<string, Object>)
    requires forall r :: r in rows ==> RowShape(level, r)
    ensures index == IndexOf(level, rows)
  {
    index := map[];
    for i := 0 to |rows|
      invariant index == IndexOf(level, rows[..i])
    {
      assert rows[..i + 1][..i] == rows[..i];
      var insight := rows[i];
      var id := IdOf(level, insight);
      if id.Some? {
        var cleaned := Clean(level, insight);
        if cleaned != map[] {
          index := index[id.value := cleaned];
        }
      }
    }
    assert rows[..|rows|] == rows;
  }

  /** Row `r` is indexed under `id`: it carries that id and cleans to a
      non-empty row. */
  predicate Carries(level: Level, r: Object, id: string)
    requires RowShape(level, r)
  {
    IdOf(level, r) == Some(id) && Clean(level, r) != map[]
  }

  /** Row `i` is indexed under `id` and no later row is. */
  predicate LastFor(level: Level, rows: seq<Object>, i: int, id: string)
    requires forall r :: r in rows ==> RowShape(level, r)
    requires 0 <= i < |rows|
  {
    && Carries(level, rows[i], id)
    && forall j :: i < j < |rows| ==> !Carries(level, rows[j], id)
  }

  /** An id is in the index exactly when some row carries it with a
      non-empty cleaned row. */
  lemma {:induction false} IndexKeys(level: Level, rows: seq<Object>, id: string)
    requires forall r :: r in rows ==> RowShape(level, r)
    ensures id in IndexOf(level, rows) <==> exists i :: 0 <= i < |rows| && Carries(level, rows[i], id)
    decreases |rows|
  {
    if rows != [] {
      var n := |rows| - 1;
      var init := rows[..n];
      IndexKeys(level, init, id);
      assert id in IndexOf(level, rows) <==> id in IndexOf(level, init) || Carries(level, rows[n], id);
      assert forall i :: 0 <= i < n ==> init[i] == rows[i];
    }
  }

  /** An indexed id maps to the last row that carries it, cleaned. */
  lemma {:induction false} IndexLastWins(level: Level, rows: seq<Object>, id: string, i: int)
    requires forall r :: r in rows ==> RowShape(level, r)
    requires 0 <= i < |rows| && LastFor(level, rows, i, id)
    ensures id in IndexOf(level, rows) && IndexOf(level, rows)[id] == Clean(level, rows[i])
    decreases |rows|
  {
    var n := |rows| - 1;
    if i < n {
      var init := rows[..n];
      assert init[i] == rows[i];
      assert forall j :: i < j < n ==> init[j] == rows[j];
      assert LastFor(level, init, i, id);
      IndexLastWins(level, init, id, i);
    }
  }

  // ---------------------------------------------------------------------
  // Joins
  // ---------------------------------------------------------------------

  /** A campaign or ad set object has a string `id`. */
  predicate HasId(c: Object) {
    "id" in c && c["id"].Str?
  }

  /** `index.get(c["id"])`, when truthy. */
  function InsightFor(index: map<string, Object>, c: Object): Option<Object>
    requires HasId(c)
  {
    if c["id"].s in index && index[c["id"].s] != map[] then Some(index[c["id"].s]) else None
  }

  /** `float(spend or 0)` and `int(float(impressions or 0))`, and whether
      the campaign had any activity; a value `float` cannot read raises. */
  function Activity(insight: Object, parse: PyFloat): Result<bool, ClientError> {
    var spend := FloatOrZero(Get(insight, "spend"), parse);
    var impressions := FloatOrZero(Get(insight, "impressions"), parse);
    if spend.None? || impressions.None? then Failure(ConversionError)
    else Success(!(spend.value == 0.0 && Trunc(impressions.value) == 0))
  }

  function CampaignRow(c: Object, insight: Object): Object
    requires HasId(c)
  {
    map["campaign_id" := c["id"], "campaign_name" := Get(c, "name"), "objective" := Get(c, "objective"),
        "status" := Get(c, "status"), "updated_time" := Get(c, "updated_time"), "insights" := Dict(insight)]
  }

  /** The outcome of the join for one campaign. */
  function JoinOne(c: Object, index: map<string, Object>, parse: PyFloat): Result<seq<Object>, ClientError>
    requires HasId(c)
  {
    match InsightFor(index, c)
    case None => Success([])
    case Some(insight) =>
      match Activity(insight, parse)
      case Failure(e) => Failure(e)
      case Success(active) => if active then Success([CampaignRow(c, insight)]) else Success([])
  }

  /** Two outcomes in sequence: the first failure, or both lists. */
  function Then(x: Result<seq<Object>, ClientError>, y: Result<seq<Object>, ClientError>): Result<seq<Object>, ClientError> {
    match x
    case Failure(e) => Failure(e)
    case Success(a) => Prepend(a, y)
  }

  /** The campaign loop of `get_campaigns`. */
  function JoinCampaigns(cs: seq<Object>, index: map<string, Object>, parse: PyFloat): Result<seq<Object>, ClientError>
    requires forall c :: c in cs ==> HasId(c)
  {
    if cs == [] then Success([])
    else Then(JoinCampaigns(cs[..|cs| - 1], index, parse), JoinOne(cs[|cs| - 1], index, parse))
  }

  method JoinCampaignsLoop(campaigns: seq<Object>, index: map<string, Object>, parse: PyFloat)
    returns (r: Result<seq<Object>, ClientError>)
    requires forall c :: c in campaigns ==> HasId(c)
    ensures r == JoinCampaigns(campaigns, index, parse)
  {
    var result: seq<Object> := [];
    for i := 0 to |campaigns|
      invariant JoinCampaigns(campaigns[..i], index, parse) == Success(result)
    {
      var campaign := campaigns[i];
      assert campaigns[..i + 1][..i] == campaigns[..i];
      var insight := InsightFor(index, campaign);
      assert JoinCampaigns(campaigns[..i + 1], index, parse) == Then(Success(result), JoinOne(campaign, index, parse));
      assert result + [] == result;
      if insight.None? {
        continue;
      }
      var spend := FloatOrZero(Get(insight.value, "spend"), parse);
      var impressions := FloatOrZero(Get(insight.value, "impressions"), parse);
      if spend.None? || impressions.None? {
        JoinCampaignsAppend(campaigns[..i + 1], campaigns[i + 1..], index, parse);
        assert campaigns[..i + 1] + campaigns[i + 1..] == campaigns;
        return Failure(ConversionError);
      }
      if spend.value == 0.0 && Trunc(impressions.value) == 0 {
        continue;
      }
      result := result + [CampaignRow(campaign, insight.value)];
    }
    assert campaigns[..|campaigns|] == campaigns;
    return Success(result);
  }

  lemma ThenAssociative(x: Result<seq<Object>, ClientError>, y: Result<seq<Object>, ClientError>, z: Result<seq<Object>, ClientError>)
    ensures Then(Then(x, y), z) == Then(x, Then(y, z))
  {
    match x
    case Failure(_) =>
    case Success(a) =>
      match y
      case Failure(_) =>
      case Success(b) =>
        match z
        case Failure(_) =>
        case Success(c) =>
          assert a + b + c == a + (b + c);
  }

  /** The join distributes over concatenation: it keeps campaign order,
      each campaign contributing its own row or none, and the first
      failure stops it. */
  lemma {:induction false} JoinCampaignsAppend(a: seq<Object>, b: seq<Object>, index: map<string, Object>, parse: PyFloat)
    requires forall c :: c in a + b ==> HasId(c)
    ensures JoinCampaigns(a + b, index, parse) == Then(JoinCampaigns(a, index, parse), JoinCampaigns(b, index, parse))
    decreases |b|
  {
    if b == [] {
      assert a + b == a;
      match JoinCampaigns(a, index, parse)
      case Failure(_) =>
      case Success(x) => assert x + [] == x;
    } else {
      var n := |b| - 1;
      assert (a + b)[..|a + b| - 1] == a + b[..n];
      assert (a + b)[|a + b| - 1] == b[n];
      JoinCampaignsAppend(a, b[..n], index, parse);
      ThenAssociative(JoinCampaigns(a, index, parse), JoinCampaigns(b[..n], index, parse), JoinOne(b[n], index, parse));
    }
  }

  /** A campaign is dropped when it has no insight or had neither spend
      nor impressions, kept as its row with its insight when it had either,
      and the join raises when a value cannot be read as a number. */
  lemma JoinOneSpec(c: Object, index: map<string, Object>, parse: PyFloat)
    requires HasId(c)
    ensures JoinCampaigns([c], index, parse) == JoinOne(c, index, parse)
    ensures InsightFor(index, c).None? ==> JoinOne(c, index, parse) == Success([])
    ensures c["id"].s !in index ==> JoinOne(c, index, parse) == Success([])
    ensures JoinOne(c, index, parse) == Success([]) && InsightFor(index, c).Some? ==>
              Activity(InsightFor(index, c).value, parse) == Success(false)
    ensures InsightFor(index, c).Some? && Activity(InsightFor(index, c).value, parse) == Success(false) ==>
              JoinOne(c, index, parse) == Success([])
    ensures InsightFor(index, c).Some? && Activity(InsightFor(index, c).value, parse) == Success(true) ==>
              JoinOne(c, index, parse) == Success([CampaignRow(c, InsightFor(index, c).value)])
    ensures InsightFor(index, c).Some? && Activity(InsightFor(index, c).value, parse).Failure? ==>
              JoinOne(c, index, parse) == Failure(ConversionError)
    ensures forall row :: JoinOne(c, index, parse) == Success([row]) ==>
              row["campaign_id"] == c["id"] && row["insights"] == Dict(index[c["id"].s])
  {
    assert [c][..0] == [];
    match JoinOne(c, index, parse)
    case Success(x) => assert [] + x == x;
    case Failure(_) =>
  }

  function AdsetRow(a: Object, insight: Object): Object
    requires HasId(a)
  {
    map["adset_id" := a["id"], "adset_name" := Get(a, "name"),
        "targeting" := if "targeting" in a then a["targeting"] else Dict(map[]),
        "status" := Get(a, "status"), "insights" := Dict(insight)]
  }

  /** The ad set loop of `get_adsets`: no activity filter. */
  function JoinAdsets(adsets: seq<Object>, index: map<string, Object>): seq<Object>
    requires forall a :: a in adsets ==> HasId(a)
  {
    if adsets == [] then []
    else
      var a := adsets[|adsets| - 1];
      JoinAdsets(adsets[..|adsets| - 1], index) +
        match InsightFor(index, a) case None => [] case Some(insight) => [AdsetRow(a, insight)]
  }

  method JoinAdsetsLoop(adsets: seq<Object>, index: map<string, Object>) returns (result: seq<Object>)
    requires forall a :: a in adsets ==> HasId(a)
    ensures result == JoinAdsets(adsets, index)
  {
    result := [];
    for i := 0 to |adsets|
      invariant result == JoinAdsets(adsets[..i], index)
    {
      assert adsets[..i + 1][..i] == adsets[..i];
      var adset := adsets[i];
      var insight := InsightFor(index, adset);
      if insight.None? {
        continue;
      }
      result := result + [AdsetRow(adset, insight.value)];
    }
    assert adsets[..|adsets|] == adsets;
  }

  /** Ad sets keep their order; exactly those with an insight are kept,
      each with its own insight. */
  lemma {:induction false} JoinAdsetsSpec(adsets: seq<Object>, index: map<string, Object>)
    requires forall a :: a in adsets ==> HasId(a)
    ensures |JoinAdsets(adsets, index)| == |Kept(adsets, index)|
    ensures forall i :: 0 <= i < |Kept(adsets, index)| ==>
              JoinAdsets(adsets, index)[i] == AdsetRow(Kept(adsets, index)[i], InsightFor(index, Kept(adsets, index)[i]).value)
  {
    if adsets != [] {
      JoinAdsetsSpec(adsets[..|adsets| - 1], index);
    }
  }

  /** The ad sets that have an insight, in order. */
  function Kept(adsets: seq<Object>, index: map<string, Object>): (k: seq<Object>)
    requires forall a :: a in adsets ==> HasId(a)
    ensures forall a :: a in k ==> HasId(a) && InsightFor(index, a).Some?
  {
    if adsets == [] then []
    else
      var a := adsets[|adsets| - 1];
      Kept(adsets[..|adsets| - 1], index) + (if InsightFor(index, a).Some? then [a] else [])
  }

  // ---------------------------------------------------------------------
  // The two operations
  // ---------------------------------------------------------------------

  /** Every row of a successfully fetched insight list has the row shape. */
  predicate Shaped(pages: seq<Object>, level: Level)
    requires Ends(pages)
  {
    Fetched(pages).Success? ==> forall r :: r in Fetched(pages).value ==> RowShape(level, r)
  }

  predicate ObjectsHaveIds(pages: seq<Object>)
    requires Ends(pages)
  {
    Fetched(pages).Success? ==> forall c :: c in Fetched(pages).value ==> HasId(c)
  }

  /** The insight request is made only when the first list is non-empty. */
  predicate NeedsInsights(pages: seq<Object>)
    requires Ends(pages)
  {
    Fetched(pages).Success? && Fetched(pages).value != []
  }

  /** `get_campaigns`: the campaign list, then (when it is non-empty) the
      insight list, cleaned, indexed and joined. */
  function Campaigns(campaignPages: seq<Object>, insightPages: seq<Object>, parse: PyFloat): Result<seq<Object>, ClientError>
    requires Ends(campaignPages) && ObjectsHaveIds(campaignPages)
    requires NeedsInsights(campaignPages) ==> Ends(insightPages) && Shaped(insightPages, CampaignLevel)
  {
    match Fetched(campaignPages)
    case Failure(e) => Failure(e)
    case Success(cs) =>
      if cs == [] then Success([])
      else
        match Fetched(insightPages)
        case Failure(e) => Failure(e)
        case Success(rows) => JoinCampaigns(cs, IndexOf(CampaignLevel, rows), parse)
  }

  method GetCampaigns(campaignPages: seq<Object>, insightPages: seq<Object>, parse: PyFloat)
    returns (r: Result<seq<Object>, ClientError>)
    requires Ends(campaignPages) && ObjectsHaveIds(campaignPages)
    requires NeedsInsights(campaignPages) ==> Ends(insightPages) && Shaped(insightPages, CampaignLevel)
    ensures r == Campaigns(campaignPages, insightPages, parse)
  {
    var campaigns := FetchWithPagination(campaignPages);
    if campaigns.Failure? {
      return Failure(campaigns.error);
    }
    if campaigns.value == [] {
      return Success([]);
    }
    var allInsights := FetchWithPagination(insightPages);
    if allInsights.Failure? {
      return Failure(allInsights.error);
    }
    var index := BuildIndex(CampaignLevel, allInsights.value);
    r := JoinCampaignsLoop(campaigns.value, index, parse);
  }

  /** No campaigns: the result is empty whatever the insight endpoint
      would have answered. */
  lemma CampaignsEmpty(campaignPages: seq<Object>, insightPages: seq<Object>, parse: PyFloat)
    requires Ends(campaignPages) && Fetched(campaignPages) == Success([])
    ensures Campaigns(campaignPages, insightPages, parse) == Success([])
  {
  }

  /** `get_adsets`: as `get_campaigns` at ad set level, without the
      activity filter. */
  function Adsets(adsetPages: seq<Object>, insightPages: seq<Object>): Result<seq<Object>, ClientError>
    requires Ends(adsetPages) && ObjectsHaveIds(adsetPages)
    requires NeedsInsights(adsetPages) ==> Ends(insightPages) && Shaped(insightPages, AdsetLevel)
  {
    match Fetched(adsetPages)
    case Failure(e) => Failure(e)
    case Success(adsets) =>
      if adsets == [] then Success([])
      else
        match Fetched(insightPages)
        case Failure(e) => Failure(e)
        case Success(rows) => Success(JoinAdsets(adsets, IndexOf(AdsetLevel, rows)))
  }

  method GetAdsets(adsetPages: seq<Object>, insightPages: seq<Object>) returns (r: Result<seq<Object>, ClientError>)
    requires Ends(adsetPages) && ObjectsHaveIds(adsetPages)
    requires NeedsInsights(adsetPages) ==> Ends(insightPages) && Shaped(insightPages, AdsetLevel)
    ensures r == Adsets(adsetPages, insightPages)
  {
    var adsets := FetchWithPagination(adsetPages);
    if adsets.Failure? {
      return Failure(adsets.error);
    }
    if adsets.value == [] {
      return Success([]);
    }
    var allInsights := FetchWithPagination(insightPages);
    if allInsights.Failure? {
      return Failure(allInsights.error);
    }
    var index := BuildIndex(AdsetLevel, allInsights.value);
    var result := JoinAdsetsLoop(adsets.value, index);
    return Success(result);
  }
}
