/** The preset-template picker of frontend/src/components/PresetTemplates.js:
    the per-content-type most-recently-used list kept in local storage, the
    "recent" row built from it and the Pro-only "recommended" row. */
module RecentTemplates {
  import opened Wrappers
  import Lists

  /** How many recent ids are kept per content type. */
  const RECENT_LIMIT: nat := 3
  /** How many templates the recommended row shows. */
  const RECOMMENDED_LIMIT: nat := 2

  /** A preset template; only its id matters to the lists here. */
  datatype Template = Template(id: string, body: string)

  /** The ids of some templates, in order. */
  function Ids(ts: seq<Template>): (r: seq<string>)
    ensures |r| == |ts| && forall k | 0 <= k < |ts| :: r[k] == ts[k].id
  {
    if |ts| == 0 then [] else [ts[0].id] + Ids(ts[1..])
  }

  /** `saveRecentTemplate(templateId)`: `recent` is the stored object mapping
      content types to id lists (a missing entry reads as []). The id moves
      to the front, other copies of it are dropped, and the list is cut to
      three. */
  function SaveRecentTemplate(recent: map<string, seq<string>>, contentType: string, id: string): (r: map<string, seq<string>>)
    ensures r.Keys == recent.Keys + {contentType}
    // the other content types' lists are untouched
    ensures forall k | k in recent && k != contentType :: r[k] == recent[k]
    // the saved id heads the list, at most three entries, no second copy of it
    ensures var l := r[contentType];
      && 1 <= |l| <= RECENT_LIMIT && l[0] == id && id !in l[1..]
    // the rest is the start of the old list with the id taken out
    ensures var old_ := if contentType in recent then recent[contentType] else [];
      var l := r[contentType];
      && l[1..] <= Lists.RemoveAll(old_, id)
      && |l| == Min(RECENT_LIMIT, 1 + |Lists.RemoveAll(old_, id)|)
  {
    var old_ := if contentType in recent then recent[contentType] else [];
    var updated := Lists.Take([id] + Lists.RemoveAll(old_, id), RECENT_LIMIT);
    assert updated[1..] == Lists.Take(Lists.RemoveAll(old_, id), RECENT_LIMIT - 1);
    recent[contentType := updated]
  }

  /** The saved id occurs exactly once in its list, and the retained older
      ids keep their previous relative order. */
  lemma {:induction false} SavedExactlyOnceInOrder(recent: map<string, seq<string>>, contentType: string, id: string)
    ensures var l := SaveRecentTemplate(recent, contentType, id)[contentType];
      var old_ := if contentType in recent then recent[contentType] else [];
      && Lists.Count(l, id) == 1
      && Lists.IsSubsequence(l[1..], old_)
  {
    var l := SaveRecentTemplate(recent, contentType, id)[contentType];
    var old_ := if contentType in recent then recent[contentType] else [];
    assert l == [l[0]] + l[1..];
    Lists.CountAppend([l[0]], l[1..], id);
    Lists.CountZeroIffAbsent(l[1..], id);
    var rest := Lists.RemoveAll(old_, id);
    Lists.RemoveAllIsSubsequence(old_, id);
    assert l[1..] == rest[..|l[1..]|];
    Lists.SubsequencePrefix(rest, old_, |l[1..]|);
  }

  /** Saving the same template twice in a row is the same as saving it once. */
  lemma {:induction false} SaveIsIdempotent(recent: map<string, seq<string>>, contentType: string, id: string)
    ensures var once := SaveRecentTemplate(recent, contentType, id);
      SaveRecentTemplate(once, contentType, id) == once
  {
    var once := SaveRecentTemplate(recent, contentType, id);
    var l := once[contentType];
    assert l == [id] + l[1..];
    Lists.RemoveAllAppend([id], l[1..], id);
    Lists.RemoveAbsent(l[1..], id);
    assert Lists.RemoveAll([id], id) == [];
    assert Lists.RemoveAll(l, id) == l[1..];
  }

  /** Most recently used first: saving `a` and then another id `b` puts `b`
      first and `a` second. */
  lemma MostRecentFirst(recent: map<string, seq<string>>, contentType: string, a: string, b: string)
    requires a != b
    ensures var l := SaveRecentTemplate(SaveRecentTemplate(recent, contentType, a), contentType, b)[contentType];
      |l| >= 2 && l[0] == b && l[1] == a
  {
    var l1 := SaveRecentTemplate(recent, contentType, a)[contentType];
    assert l1 == [a] + l1[1..];
    Lists.RemoveAllAppend([a], l1[1..], b);
    assert Lists.RemoveAll([a], b) == [a];
  }

  /** `contentTemplates.find(t => t.id === id)`: the first template with that id. */
  function Find(templates: seq<Template>, id: string): (r: Option<Template>)
    ensures r.Some? ==> r.value in templates && r.value.id == id
    ensures r.None? <==> forall t | t in templates :: t.id != id
  {
    if |templates| == 0 then None
    else if templates[0].id == id then Some(templates[0])
    else Find(templates[1..], id)
  }

  /** `recentIds.map(find).filter(Boolean)`. */
  function Resolve(ids: seq<string>, templates: seq<Template>): (r: seq<Template>)
    ensures |r| <= |ids|
    ensures forall t | t in r :: t in templates && t.id in ids
    // an id is dropped only when no template has it
    ensures forall id | id in ids && Find(templates, id).Some? :: Find(templates, id).value in r
    // recent-id order is kept
    ensures Lists.IsSubsequence(Ids(r), ids)
  {
    if |ids| == 0 then []
    else
      var rest := Resolve(ids[1..], templates);
      match Find(templates, ids[0])
      case None =>
        Lists.SubsequenceOfTail(Ids(rest), ids);
        rest
      case Some(t) =>
        assert Ids([t] + rest)[1..] == Ids(rest);
        [t] + rest
  }

  /** The `recentTemplates` row: empty when hidden or when nothing was used. */
  function RecentRow(recentIds: seq<string>, templates: seq<Template>, showRecent: bool): (r: seq<Template>)
    ensures !showRecent ==> r == []
    ensures |r| <= |recentIds|
    ensures forall t | t in r :: t in templates && t.id in recentIds
    ensures showRecent ==> forall id | id in recentIds && Find(templates, id).Some? :: Find(templates, id).value in r
    ensures Lists.IsSubsequence(Ids(r), recentIds)
  {
    if !showRecent || |recentIds| == 0 then [] else Resolve(recentIds, templates)
  }

  /** `user?.subscription_plan === 'pro' || … === 'business'`. */
  predicate IsPro(plan: Option<string>) {
    plan == Some("pro") || plan == Some("business")
  }

  /** The `recommendedTemplates` row: for Pro and Business users, the first
      two templates not in the recent list; nothing for anyone else. */
  function RecommendedRow(templates: seq<Template>, recentIds: seq<string>, plan: Option<string>, showRecommended: bool): (r: seq<Template>)
    ensures |r| <= RECOMMENDED_LIMIT
    ensures forall t | t in r :: t in templates && t.id !in recentIds
    ensures !showRecommended || !IsPro(plan) ==> r == []
    ensures showRecommended && IsPro(plan) ==>
      |r| == Min(RECOMMENDED_LIMIT, |Lists.Filter(templates, (t: Template) => t.id !in recentIds)|)
    // the row is the front of the non-recent templates, in catalogue order
    ensures r <= Lists.Filter(templates, (t: Template) => t.id !in recentIds)
  {
    if !showRecommended then []
    else
      var keep := (t: Template) => t.id !in recentIds;
      var available := Lists.Filter(templates, keep);
      if IsPro(plan) && |available| > 0 then
        var shown := Lists.Take(available, RECOMMENDED_LIMIT);
        assert forall t | t in shown :: t in available && keep(t);
        shown
      else []
  }

  /** A Pro user with a template that is not recent always sees a
      recommendation. */
  lemma ProSeesRecommendation(templates: seq<Template>, recentIds: seq<string>, plan: Option<string>, t: Template)
    requires IsPro(plan) && t in templates && t.id !in recentIds
    ensures |RecommendedRow(templates, recentIds, plan, true)| >= 1
  {
    assert t in Lists.Filter(templates, (u: Template) => u.id !in recentIds);
  }

  /** The two rows never show the same template id. */
  lemma RowsAreDisjoint(templates: seq<Template>, recentIds: seq<string>, plan: Option<string>, showRecent: bool, showRecommended: bool)
    ensures forall t, u | t in RecentRow(recentIds, templates, showRecent) && u in RecommendedRow(templates, recentIds, plan, showRecommended) :: t.id != u.id
  {
  }
}
