/** Objective labels and the per-objective campaign list of the front end:
    `formatObjectiveName` (frontend/src/pages/AdAccountPage.tsx), and the
    filter and `objectiveLabel` of frontend/src/pages/CampaignGroupPage.tsx. */
module ObjectiveLabel {
  import opened Wrappers
  import opened Text
  import opened InsightHelpers
  import opened Grouping

  /** `replace(/^OUTCOME_/, '')`: the prefix goes only when it starts the string. */
  function StripOutcome(o: string): string {
    if StartsWith(o, "OUTCOME_") then o[8..] else o
  }

  /** `w.charAt(0) + w.slice(1).toLowerCase()`. */
  function Capitalize(w: string): (r: string)
    ensures |r| == |w|
  {
    if w == [] then [] else [w[0]] + Lower(w[1..])
  }

  function CapitalizeAll(ws: seq<string>): (r: seq<string>)
    ensures |r| == |ws|
  {
    if ws == [] then [] else [Capitalize(ws[0])] + CapitalizeAll(ws[1..])
  }

  /** `.split(' ').map(capitalize).join(' ')`. */
  function CapitalizeWords(t: string): string {
    Join(CapitalizeAll(Split(t, ' ')), ' ')
  }

  /** `formatObjectiveName`: strip the prefix, underscores to spaces, then
      keep each word's first character and lower-case the rest. */
  function FormatObjectiveName(objective: string): string {
    CapitalizeWords(ReplaceChar(StripOutcome(objective), '_', ' '))
  }

  /** The character-by-character description of the word casing: a
      character that starts the string or follows a space is kept, every
      other one is lower-cased. */
  function CasedAt(t: string, i: nat): char
    requires i < |t|
  {
    if i == 0 || t[i - 1] == ' ' then t[i] else LowerChar(t[i])
  }

  lemma {:induction false} CapitalizeWordsCharwise(t: string)
    ensures |CapitalizeWords(t)| == |t|
    ensures forall i :: 0 <= i < |t| ==> CapitalizeWords(t)[i] == CasedAt(t, i)
    decreases |t|
  {
    if ' ' in t {
      var i := IndexOf(t, ' ');
      var w, rest := t[..i], t[i + 1..];
      assert Split(t, ' ') == [w] + Split(rest, ' ');
      assert CapitalizeAll(Split(t, ' ')) == [Capitalize(w)] + CapitalizeAll(Split(rest, ' '));
      assert CapitalizeWords(t) == Capitalize(w) + [' '] + CapitalizeWords(rest);
      assert t == w + [' '] + rest;
      WordCasing(w);
      CapitalizeWordsCharwise(rest);
      CasingConcat(w, rest, Capitalize(w), CapitalizeWords(rest));
    } else {
      assert Split(t, ' ') == [t];
      WordCasing(t);
    }
  }

  /** The casing of a word, a space and the rest is the word's casing, the
      space, and the rest's casing. */
  lemma CasingConcat(w: string, rest: string, cw: string, cr: string)
    requires ' ' !in w
    requires |cw| == |w| && forall k :: 0 <= k < |w| ==> cw[k] == CasedAt(w, k)
    requires |cr| == |rest| && forall k :: 0 <= k < |rest| ==> cr[k] == CasedAt(rest, k)
    ensures forall k :: 0 <= k < |w| + 1 + |rest| ==> (cw + [' '] + cr)[k] == CasedAt(w + [' '] + rest, k)
  {
    var t, c := w + [' '] + rest, cw + [' '] + cr;
    forall k | 0 <= k < |t| ensures c[k] == CasedAt(t, k) {
      if k < |w| {
        assert k > 0 ==> t[k - 1] == w[k - 1];
      } else if k > |w| {
        assert c[k] == cr[k - |w| - 1];
        assert k - |w| - 1 > 0 ==> t[k - 1] == rest[k - |w| - 2];
      }
    }
  }

  /** Within one word only the first character keeps its case. */
  lemma WordCasing(w: string)
    requires ' ' !in w
    ensures forall k :: 0 <= k < |w| ==> Capitalize(w)[k] == CasedAt(w, k)
  {
    forall k | 0 < k < |w| ensures Capitalize(w)[k] == CasedAt(w, k) {
      assert w[k - 1] in w;
      assert Capitalize(w)[k] == Lower(w[1..])[k - 1];
    }
  }

  /** The label has one character per character of the stripped objective:
      a space exactly where that had an underscore or a space (so no
      underscore is left), the first character of each word unchanged and
      the others lower-cased. */
  lemma FormatObjectiveNameSpec(objective: string)
    ensures var t := StripOutcome(objective);
            var r := FormatObjectiveName(objective);
      && |r| == |t|
      && '_' !in r
      && (forall i :: 0 <= i < |t| ==> (r[i] == ' ' <==> t[i] == '_' || t[i] == ' '))
      && (forall i :: 0 <= i < |t| && t[i] != '_' && t[i] != ' ' ==>
            r[i] == if i == 0 || t[i - 1] == '_' || t[i - 1] == ' ' then t[i] else LowerChar(t[i]))
  {
    var t := StripOutcome(objective);
    var u := ReplaceChar(t, '_', ' ');
    CapitalizeWordsCharwise(u);
  }

  /** The prefix is removed only where it begins the objective. */
  lemma StripOutcomeSpec(objective: string)
    ensures StartsWith(objective, "OUTCOME_") ==> "OUTCOME_" + StripOutcome(objective) == objective
    ensures !StartsWith(objective, "OUTCOME_") ==> StripOutcome(objective) == objective
  {
  }

  /** The label has one word more than the stripped objective has
      underscores and spaces: each of those separates two words. */
  lemma FormatObjectiveNameWords(objective: string)
    ensures var t := StripOutcome(objective);
      |Split(FormatObjectiveName(objective), ' ')| == Count(t, '_') + Count(t, ' ') + 1
  {
    var t := StripOutcome(objective);
    var r := FormatObjectiveName(objective);
    FormatObjectiveNameSpec(objective);
    SplitCount(r, ' ');
    SeparatorCount(r, t);
  }

  /** A string with a space exactly where another has an underscore or a
      space has as many spaces as the other has of both. */
  lemma {:induction false} SeparatorCount(r: string, t: string)
    requires |r| == |t|
    requires forall i :: 0 <= i < |t| ==> (r[i] == ' ' <==> t[i] == '_' || t[i] == ' ')
    ensures Count(r, ' ') == Count(t, '_') + Count(t, ' ')
    decreases |t|
  {
    if t != [] {
      assert forall i :: 0 <= i < |t| - 1 ==> r[1..][i] == r[i + 1] && t[1..][i] == t[i + 1];
      SeparatorCount(r[1..], t[1..]);
    }
  }

  /** The route objective as the page reads it: `(objective || 'UNKNOWN')`. */
  function RouteKey(objective: Option<string>): string {
    if objective == None || objective == Some("") then "UNKNOWN" else objective.value
  }

  /** CampaignGroupPage's filter over the fetched campaigns: keep each one
      whose `(c.objective || 'UNKNOWN')` equals the route objective; with no
      route objective, `=== undefined` keeps nothing. */
  function CampaignsForRoute(all: seq<Campaign>, objective: Option<string>): seq<Campaign> {
    if all == [] then []
    else
      var c := all[0];
      var keep := objective.Some? &&
        (if c.objective == None || c.objective == Some("") then "UNKNOWN" else c.objective.value) == objective.value;
      (if keep then [c] else []) + CampaignsForRoute(all[1..], objective)
  }

  /** CampaignGroupPage's `objectiveLabel`, the same chain of string
      operations as `formatObjectiveName`, applied to the route key. */
  function CampaignGroupLabel(objective: Option<string>): string {
    FormatObjectiveName(RouteKey(objective))
  }

  /** The page keeps exactly the members of the group with the route's
      key, in fetch order: its filter key is the grouping key. */
  lemma {:induction false} CampaignsForRouteAreGroup(all: seq<Campaign>, k: string)
    ensures CampaignsForRoute(all, Some(k)) == Members(all, Key, k)
    decreases |all|
  {
    if all != [] {
      CampaignsForRouteAreGroup(all[1..], k);
      MembersCons(all[0], all[1..], Key, k);
      assert [all[0]] + all[1..] == all;
    }
  }

  /** Without a route objective the page shows no campaigns. */
  lemma {:induction false} CampaignsForMissingRoute(all: seq<Campaign>)
    ensures CampaignsForRoute(all, None) == []
    decreases |all|
  {
    if all != [] {
      CampaignsForMissingRoute(all[1..]);
    }
  }

  /** The page for a group's objective lists exactly that group's campaigns. */
  lemma PageMatchesGroup(all: seq<Campaign>, g: ObjectiveGroup, parse: FloatParser)
    requires IsGroupOf(g, all, parse)
    ensures CampaignsForRoute(all, Some(g.objective)) == g.campaigns
  {
    CampaignsForRouteAreGroup(all, g.objective);
  }

  /** A page reached without an objective is labelled "Unknown". */
  lemma MissingObjectiveLabel()
    ensures CampaignGroupLabel(None) == "Unknown"
    ensures CampaignGroupLabel(Some("")) == "Unknown"
  {
    UnknownLabel(RouteKey(None));
  }

  /** The label of the fallback key `UNKNOWN`. */
  lemma UnknownLabel(t: string)
    requires t == "UNKNOWN"
    ensures FormatObjectiveName(t) == "Unknown"
  {
    assert StripOutcome(t) == t by {
      assert !StartsWith(t, "OUTCOME_");
    }
    FormatObjectiveNameSpec(t);
    var r := FormatObjectiveName(t);
    assert r[0] == 'U';
    assert r[1] == LowerChar('N') == 'n';
    assert r[2] == LowerChar('K') == 'k';
    assert r[3] == LowerChar('N') == 'n';
    assert r[4] == LowerChar('O') == 'o';
    assert r[5] == LowerChar('W') == 'w';
    assert r[6] == LowerChar('N') == 'n';
  }
}
