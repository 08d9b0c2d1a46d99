/**
 Series membership, held twice: each series lists its videos in order, each video names its series.
 The effect of every write on both halves, and the consistency all of them keep.
 */
module SeriesCatalog {
  import opened Wrappers
  import opened Placement

  type SeriesId = nat

  datatype Series = Series(name: string, videoIds: seq<VideoId>)

  /** The series documents, and the `seriesId` of every video document. */
  datatype Catalog = Catalog(series: map<SeriesId, Series>, seriesOf: map<VideoId, Option<SeriesId>>)

  // ---------------------------------------------------------------- the writes

  function Drop(ids: seq<VideoId>, gone: set<VideoId>): seq<VideoId> {
    Filter(ids, gone, false)
  }

  predicate Lists(s: Series, ids: set<VideoId>) {
    exists v :: v in s.videoIds && v in ids
  }

  predicate Affected(c: Catalog, ids: set<VideoId>, keep: Option<SeriesId>, sid: SeriesId) {
    sid in c.series && Lists(c.series[sid], ids) && keep != Some(sid)
  }

  /** `_pull`: the ids leave every series but `keep`; a series this empties is deleted. */
  function PullSeries(c: Catalog, ids: set<VideoId>, keep: Option<SeriesId>): map<SeriesId, Series> {
    map sid | sid in c.series && !(Affected(c, ids, keep, sid) && Drop(c.series[sid].videoIds, ids) == []) ::
      if Affected(c, ids, keep, sid) then c.series[sid].(videoIds := Drop(c.series[sid].videoIds, ids))
      else c.series[sid]
  }

  function Pull(c: Catalog, ids: set<VideoId>, keep: Option<SeriesId>): Catalog {
    c.(series := PullSeries(c, ids, keep))
  }

  ghost predicate Pulls(c: Catalog, ids: set<VideoId>, keep: Option<SeriesId>) {
    exists sid :: Affected(c, ids, keep, sid)
  }

  /** `_resolve`: the named videos that exist, in the order named, without repeats. */
  function Resolve(c: Catalog, named: seq<VideoId>): (r: seq<VideoId>)
    ensures NoDuplicates(r)
    ensures forall v :: v in r <==> v in named && v in c.seriesOf
  {
    if named == [] then []
    else
      var rest, v := Resolve(c, named[..|named| - 1]), named[|named| - 1];
      if v in c.seriesOf && v !in rest then rest + [v] else rest
  }

  predicate Named(c: Catalog, name: string, sid: SeriesId) {
    sid in c.series && c.series[sid].name == name
  }

  /** `find_one` by name; names are unique. */
  ghost function FindSeries(c: Catalog, name: string): (r: Option<SeriesId>)
    ensures r.Some? ==> Named(c, name, r.value)
    ensures r.None? ==> forall sid :: !Named(c, name, sid)
  {
    if sid :| Named(c, name, sid) then Some(sid) else None
  }

  function SetSeries(seriesOf: map<VideoId, Option<SeriesId>>, ids: set<VideoId>, to: Option<SeriesId>)
      : map<VideoId, Option<SeriesId>> {
    map v | v in seriesOf :: if v in ids then to else seriesOf[v]
  }

  /** Those of the selection that are not in the target yet. */
  function Joining(c: Catalog, selected: seq<VideoId>, target: SeriesId): set<VideoId>
    requires forall v :: v in selected ==> v in c.seriesOf
  {
    set v | v in selected && c.seriesOf[v] != Some(target)
  }

  /** `assign` once the target is known: write its list, then move the newcomers over. */
  function AssignTo(c: Catalog, target: SeriesId, name: string, members: seq<VideoId>, selected: seq<VideoId>): Catalog
    requires NoDuplicates(members) && NoDuplicates(selected) && forall v :: v in selected ==> v in c.seriesOf
  {
    var listed := c.(series := c.series[target := Series(name, Place(members, selected))]);
    var joining := Joining(c, selected, target);
    var pulled := Pull(listed, joining, Some(target));
    pulled.(seriesOf := SetSeries(c.seriesOf, joining, Some(target)))
  }

  ghost function Assign(c: Catalog, freshId: SeriesId, name: string, named: seq<VideoId>): Catalog
    requires Consistent(c)
  {
    var selected := Resolve(c, named);
    if selected == [] then c
    else match FindSeries(c, name)
      case Some(sid) => AssignTo(c, sid, name, c.series[sid].videoIds, selected)
      case None => AssignTo(c, freshId, name, [], selected)
  }

  function Clear(c: Catalog, named: seq<VideoId>): Catalog {
    var ids := Elements(Resolve(c, named));
    Pull(c, ids, None).(seriesOf := SetSeries(c.seriesOf, ids, None))
  }

  /** Deleting video documents and then settling the series side. */
  function DeleteThenDetach(c: Catalog, gone: set<VideoId>): Catalog {
    Pull(c.(seriesOf := map v | v in c.seriesOf && v !in gone :: c.seriesOf[v]), gone, None)
  }

  // ---------------------------------------------------------------- consistency

  predicate ListsMatch(c: Catalog) {
    forall sid :: sid in c.series ==>
      forall v :: v in c.series[sid].videoIds ==> v in c.seriesOf && c.seriesOf[v] == Some(sid)
  }

  predicate ReferencesMatch(c: Catalog) {
    forall v :: v in c.seriesOf && c.seriesOf[v].Some? ==>
      c.seriesOf[v].value in c.series && v in c.series[c.seriesOf[v].value].videoIds
  }

  predicate WellListed(c: Catalog) {
    forall sid :: sid in c.series ==> c.series[sid].videoIds != [] && NoDuplicates(c.series[sid].videoIds)
  }

  predicate NamesUnique(c: Catalog) {
    forall s, t :: s in c.series && t in c.series && c.series[s].name == c.series[t].name ==> s == t
  }

  /**
   A video is listed by a series exactly when its `seriesId` names that series; so no id is listed by two.
   No id is listed twice, no series is empty, no two share a name.
   */
  predicate Consistent(c: Catalog) {
    ListsMatch(c) && ReferencesMatch(c) && WellListed(c) && NamesUnique(c)
  }

  lemma DropMembers(ids: seq<VideoId>, gone: set<VideoId>)
    ensures forall v :: v in Drop(ids, gone) <==> v in ids && v !in gone
    ensures NoDuplicates(ids) ==> NoDuplicates(Drop(ids, gone))
  {
    var p := Positions(ids, gone, false);
    forall v | v in ids && v !in gone ensures v in Drop(ids, gone) {
      var i :| 0 <= i < |ids| && ids[i] == v;
      var k :| 0 <= k < |p| && p[k] == i;
      assert Drop(ids, gone)[k] == v;
    }
    forall v | v in Drop(ids, gone) ensures v in ids && v !in gone {
      var k :| 0 <= k < |p| && Drop(ids, gone)[k] == v;
      assert ids[p[k]] == v;
    }
    if NoDuplicates(ids) {
      FilterNoDuplicates(ids, gone, false);
    }
  }

  /** What a pull leaves: per series, the old members minus the pulled ones. */
  lemma PullMembers(c: Catalog, ids: set<VideoId>, keep: Option<SeriesId>, sid: SeriesId)
    requires sid in c.series
    ensures var s' := PullSeries(c, ids, keep);
      && (sid in s' ==> s'[sid].name == c.series[sid].name)
      && (sid in s' ==> forall v :: v in s'[sid].videoIds <==>
          v in c.series[sid].videoIds && (v !in ids || keep == Some(sid)))
      && (sid !in s' ==> keep != Some(sid) && forall v :: v in c.series[sid].videoIds ==> v in ids)
      && (sid in s' && NoDuplicates(c.series[sid].videoIds) ==> NoDuplicates(s'[sid].videoIds))
      && (sid in s' && c.series[sid].videoIds != [] ==> s'[sid].videoIds != [])
  {
    hide Filter, Drop, NoDuplicates;
    DropMembers(c.series[sid].videoIds, ids);
  }

  /** Everything but the agreement with the references survives a pull. */
  lemma PullKeepsLists(c: Catalog, ids: set<VideoId>, keep: Option<SeriesId>)
    requires WellListed(c) && NamesUnique(c)
    ensures WellListed(Pull(c, ids, keep)) && NamesUnique(Pull(c, ids, keep))
  {
    hide PullSeries, NoDuplicates;
    assert PullSeries(c, ids, keep).Keys <= c.series.Keys by { PullOnlyDrops(c, ids, keep); }
    forall sid | sid in c.series ensures sid in PullSeries(c, ids, keep) ==>
      PullSeries(c, ids, keep)[sid].videoIds != [] && NoDuplicates(PullSeries(c, ids, keep)[sid].videoIds)
      && PullSeries(c, ids, keep)[sid].name == c.series[sid].name
    {
      PullMembers(c, ids, keep, sid);
    }
  }

  lemma PullOnlyDrops(c: Catalog, ids: set<VideoId>, keep: Option<SeriesId>)
    ensures PullSeries(c, ids, keep).Keys <= c.series.Keys
  {
  }

  lemma ClearKeepsConsistent(c: Catalog, named: seq<VideoId>)
    requires Consistent(c)
    ensures Consistent(Clear(c, named))
  {
    hide PullSeries, Resolve, NoDuplicates;
    var ids := Elements(Resolve(c, named));
    PullKeepsLists(c, ids, None);
    PullOnlyDrops(c, ids, None);
    forall sid | sid in c.series ensures true { PullMembers(c, ids, None, sid); }
    forall sid | sid in c.series
      ensures sid in PullSeries(c, ids, None) ==>
        forall v :: v in PullSeries(c, ids, None)[sid].videoIds <==> v in c.series[sid].videoIds && v !in ids
      ensures sid !in PullSeries(c, ids, None) ==> forall v :: v in c.series[sid].videoIds ==> v in ids
    {
      PullMembers(c, ids, None, sid);
    }
  }

  lemma DeleteKeepsConsistent(c: Catalog, gone: set<VideoId>)
    requires Consistent(c)
    ensures Consistent(DeleteThenDetach(c, gone))
  {
    hide PullSeries, NoDuplicates;
    var d := c.(seriesOf := map v | v in c.seriesOf && v !in gone :: c.seriesOf[v]);
    PullKeepsLists(d, gone, None);
    PullOnlyDrops(d, gone, None);
    forall sid | sid in c.series
      ensures sid in PullSeries(d, gone, None) ==>
        forall v :: v in PullSeries(d, gone, None)[sid].videoIds <==> v in c.series[sid].videoIds && v !in gone
      ensures sid !in PullSeries(d, gone, None) ==> forall v :: v in c.series[sid].videoIds ==> v in gone
    {
      PullMembers(d, gone, None, sid);
    }
  }

  /** The target of an assignment: found by name, or about to be created under a fresh id. */
  predicate TargetOf(c: Catalog, target: SeriesId, name: string, members: seq<VideoId>) {
    || (Named(c, name, target) && members == c.series[target].videoIds)
    || (target !in c.series && members == [] && forall sid :: sid in c.series ==> c.series[sid].name != name)
  }

  /** Who is listed where after an assignment. */
  ghost predicate AssignedMembers(c: Catalog, target: SeriesId, members: seq<VideoId>, selected: seq<VideoId>,
                                  joining: set<VideoId>, s': map<SeriesId, Series>) {
    && s'.Keys <= c.series.Keys + {target} && target in s'
    && (forall v :: v in s'[target].videoIds <==> v in members || v in selected)
    && (forall sid :: sid in s' && sid != target ==>
          forall v :: v in s'[sid].videoIds <==> v in c.series[sid].videoIds && v !in joining)
    && (forall sid :: sid in c.series && sid != target && sid !in s' ==>
          forall v :: v in c.series[sid].videoIds ==> v in joining)
  }

  lemma AssignToMembers(c: Catalog, target: SeriesId, name: string, members: seq<VideoId>, selected: seq<VideoId>)
    requires Consistent(c) && TargetOf(c, target, name, members)
    requires NoDuplicates(members) && NoDuplicates(selected) && selected != []
    requires forall v :: v in selected ==> v in c.seriesOf
    ensures var c' := AssignTo(c, target, name, members, selected);
      && AssignedMembers(c, target, members, selected, Joining(c, selected, target), c'.series)
      && WellListed(c') && NamesUnique(c')
  {
    hide PullSeries, Place, Filter, ListsMatch, ReferencesMatch;
    PlaceIsPlacement(members, selected);
    var placed := Place(members, selected);
    var listed := c.(series := c.series[target := Series(name, placed)]);
    var joining := Joining(c, selected, target);
    assert selected[0] in placed;
    PullKeepsLists(listed, joining, Some(target));
    PullOnlyDrops(listed, joining, Some(target));
    hide NoDuplicates, IsPlacement;
    var s' := PullSeries(listed, joining, Some(target));
    forall sid | sid in listed.series
      ensures sid in s' ==> forall v :: v in s'[sid].videoIds <==>
          v in listed.series[sid].videoIds && (v !in joining || sid == target)
      ensures sid !in s' ==> sid != target && forall v :: v in listed.series[sid].videoIds ==> v in joining
    {
      PullMembers(listed, joining, Some(target), sid);
    }
    assert forall v :: v in placed <==> v in members || v in selected by { PlacedMembers(members, selected); }
  }

  lemma PlacedMembers(members: seq<VideoId>, selected: seq<VideoId>)
    requires NoDuplicates(members) && NoDuplicates(selected)
    ensures forall v :: v in Place(members, selected) <==> v in members || v in selected
  {
    PlaceIsPlacement(members, selected);
  }

  lemma AssignToKeepsConsistent(c: Catalog, target: SeriesId, name: string,
                                members: seq<VideoId>, selected: seq<VideoId>)
    requires Consistent(c) && TargetOf(c, target, name, members)
    requires NoDuplicates(members) && NoDuplicates(selected) && selected != []
    requires forall v :: v in selected ==> v in c.seriesOf
    ensures Consistent(AssignTo(c, target, name, members, selected))
  {
    var c' := AssignTo(c, target, name, members, selected);
    AssignToMembers(c, target, name, members, selected);
    hide PullSeries, Place, NoDuplicates, WellListed, NamesUnique, ListsMatch, ReferencesMatch, AssignedMembers;
    AssignedMatch(c, c', target, name, members, selected);
  }

  lemma AssignedMatch(c: Catalog, c': Catalog, target: SeriesId, name: string,
                      members: seq<VideoId>, selected: seq<VideoId>)
    requires ListsMatch(c) && ReferencesMatch(c) && TargetOf(c, target, name, members)
    requires forall v :: v in selected ==> v in c.seriesOf
    requires AssignedMembers(c, target, members, selected, Joining(c, selected, target), c'.series)
    requires c'.seriesOf == SetSeries(c.seriesOf, Joining(c, selected, target), Some(target))
    ensures ListsMatch(c') && ReferencesMatch(c')
  {
  }

  lemma AssignKeepsConsistent(c: Catalog, freshId: SeriesId, name: string, named: seq<VideoId>)
    requires Consistent(c) && freshId !in c.series
    ensures Consistent(Assign(c, freshId, name, named))
  {
    hide Resolve, AssignTo;
    var selected := Resolve(c, named);
    if selected != [] {
      match FindSeries(c, name)
      case Some(sid) => AssignToKeepsConsistent(c, sid, name, c.series[sid].videoIds, selected);
      case None =>
        assert forall sid :: sid in c.series && c.series[sid].name == name ==> Named(c, name, sid);
        AssignToKeepsConsistent(c, freshId, name, [], selected);
    }
  }

  // ---------------------------------------------------------------- what the writes leave

  /** What is left of a list, in its order. */
  ghost predicate InOrder(before: seq<VideoId>, after: seq<VideoId>) {
    exists at: seq<nat> ::
      |at| == |after| && Ascending(at) && forall k :: 0 <= k < |at| ==> at[k] < |before| && after[k] == before[at[k]]
  }

  lemma DropInOrder(ids: seq<VideoId>, gone: set<VideoId>)
    ensures InOrder(ids, Drop(ids, gone))
  {
    var at := Positions(ids, gone, false);
    assert |at| == |Drop(ids, gone)| && Ascending(at);
  }

  lemma AllInOrder(ids: seq<VideoId>)
    ensures InOrder(ids, ids)
  {
    var at := Range(0, |ids|);
    assert |at| == |ids| && Ascending(at);
  }

  /** The lists lose exactly these ids, in place; a list that loses all is gone. */
  ghost predicate Without(before: map<SeriesId, Series>, after: map<SeriesId, Series>, gone: set<VideoId>,
                          sid: SeriesId) {
    sid in before ==>
      if sid in after then
        && after[sid].name == before[sid].name && InOrder(before[sid].videoIds, after[sid].videoIds)
        && forall v :: v in after[sid].videoIds <==> v in before[sid].videoIds && v !in gone
      else forall v :: v in before[sid].videoIds ==> v in gone
  }

  lemma PullIsWithout(c: Catalog, ids: set<VideoId>, keep: Option<SeriesId>, sid: SeriesId)
    requires keep != Some(sid)
    ensures Without(c.series, PullSeries(c, ids, keep), ids, sid)
  {
    hide Drop, InOrder;
    if sid in c.series {
      PullMembers(c, ids, keep, sid);
      DropInOrder(c.series[sid].videoIds, ids);
      AllInOrder(c.series[sid].videoIds);
    }
  }

  /**
   An assignment: the target, found by name or new, lists its members and the selection as a placement has it; every
   selected video names it, and nobody else's reference changes; the other series lose what joined, in place.
   */
  lemma AssignLeaves(c: Catalog, freshId: SeriesId, name: string, named: seq<VideoId>)
    requires Consistent(c) && freshId !in c.series && Resolve(c, named) != []
    ensures var c' := Assign(c, freshId, name, named);
      var found := FindSeries(c, name);
      var target, members := found.GetOr(freshId), if found.Some? then c.series[found.value].videoIds else [];
      && target in c'.series && c'.series[target].name == name
      && IsPlacement(members, Resolve(c, named), c'.series[target].videoIds)
      && c'.seriesOf.Keys == c.seriesOf.Keys
      && (forall v :: v in c.seriesOf ==> c'.seriesOf[v] == if v in named then Some(target) else c.seriesOf[v])
      && (forall sid :: sid in c'.series ==> sid in c.series || sid == target)
      && (forall sid :: sid != target ==> Without(c.series, c'.series, Elements(named), sid))
  {
    hide Place, PullSeries, ListsMatch, ReferencesMatch, Without, IsPlacement, Resolve;
    var found, selected := FindSeries(c, name), Resolve(c, named);
    var target, members := found.GetOr(freshId), if found.Some? then c.series[found.value].videoIds else [];
    PlaceIsPlacement(members, selected);
    AssignToLeaves(c, target, name, members, selected, named);
  }

  lemma AssignToLeaves(c: Catalog, target: SeriesId, name: string, members: seq<VideoId>, selected: seq<VideoId>,
                       named: seq<VideoId>)
    requires ListsMatch(c) && NoDuplicates(members) && NoDuplicates(selected)
    requires forall v :: v in selected <==> v in named && v in c.seriesOf
    ensures var c' := AssignTo(c, target, name, members, selected);
      && target in c'.series && c'.series[target] == Series(name, Place(members, selected))
      && c'.seriesOf.Keys == c.seriesOf.Keys
      && (forall v :: v in c.seriesOf ==> c'.seriesOf[v] == if v in named then Some(target) else c.seriesOf[v])
      && (forall sid :: sid in c'.series ==> sid in c.series || sid == target)
      && (forall sid :: sid != target ==> Without(c.series, c'.series, Elements(named), sid))
  {
    hide Place, Drop, NoDuplicates;
    var listed := c.(series := c.series[target := Series(name, Place(members, selected))]);
    var joining := Joining(c, selected, target);
    PullOnlyDrops(listed, joining, Some(target));
    forall sid | sid != target
      ensures Without(c.series, PullSeries(listed, joining, Some(target)), Elements(named), sid)
    {
      PullIsWithout(listed, joining, Some(target), sid);
    }
  }

  /** A clearing: exactly the named videos that exist lose their series, and their places in its list. */
  lemma ClearLeaves(c: Catalog, named: seq<VideoId>)
    requires ListsMatch(c)
    ensures var c' := Clear(c, named);
      && c'.seriesOf.Keys == c.seriesOf.Keys && c'.series.Keys <= c.series.Keys
      && (forall v :: v in c.seriesOf ==> c'.seriesOf[v] == if v in named then None else c.seriesOf[v])
      && (forall sid :: Without(c.series, c'.series, Elements(named), sid))
  {
    hide Drop, Resolve, InOrder;
    var ids := Elements(Resolve(c, named));
    PullOnlyDrops(c, ids, None);
    forall sid ensures Without(c.series, PullSeries(c, ids, None), Elements(named), sid) {
      PullIsWithout(c, ids, None, sid);
    }
  }

  /** A deletion: exactly the deleted videos are gone, from the documents and from every list. */
  lemma DeleteLeaves(c: Catalog, gone: set<VideoId>)
    ensures var c' := DeleteThenDetach(c, gone);
      && c'.series.Keys <= c.series.Keys
      && (forall v :: v in c'.seriesOf <==> v in c.seriesOf && v !in gone)
      && (forall v :: v in c'.seriesOf ==> c'.seriesOf[v] == c.seriesOf[v])
      && (forall sid :: Without(c.series, c'.series, gone, sid))
  {
    hide PullSeries, Without;
    var d := c.(seriesOf := map v | v in c.seriesOf && v !in gone :: c.seriesOf[v]);
    PullOnlyDrops(d, gone, None);
    forall sid ensures Without(d.series, PullSeries(d, gone, None), gone, sid) {
      PullIsWithout(d, gone, None, sid);
    }
  }

  // ---------------------------------------------------------------- every sequence of writes

  datatype Write =
    | DoAssign(freshId: SeriesId, name: string, ids: seq<VideoId>)
    | DoClear(cleared: seq<VideoId>)
    | DoDelete(gone: set<VideoId>)
    | NewVideo(video: VideoId)

  /** A new series gets an unused id, a new video belongs to no series. */
  ghost predicate Allowed(c: Catalog, w: Write) {
    match w
    case DoAssign(freshId, _, _) => freshId !in c.series
    case NewVideo(v) => v !in c.seriesOf
    case _ => true
  }

  ghost function Apply(c: Catalog, w: Write): Catalog
    requires Consistent(c)
  {
    match w
    case DoAssign(freshId, name, ids) => Assign(c, freshId, name, ids)
    case DoClear(ids) => Clear(c, ids)
    case DoDelete(gone) => DeleteThenDetach(c, gone)
    case NewVideo(v) => c.(seriesOf := c.seriesOf[v := None])
  }

  /** `cs` is the history of catalogues while the writes are carried out. */
  ghost predicate History(cs: seq<Catalog>, ws: seq<Write>) {
    && |cs| == |ws| + 1
    && forall i :: 0 <= i < |ws| ==> Allowed(cs[i], ws[i]) && (Consistent(cs[i]) ==> cs[i + 1] == Apply(cs[i], ws[i]))
  }

  lemma ApplyKeepsConsistent(c: Catalog, w: Write)
    requires Consistent(c) && Allowed(c, w)
    ensures Consistent(Apply(c, w))
  {
    hide Assign, Clear, DeleteThenDetach;
    match w
    case DoAssign(freshId, name, ids) => AssignKeepsConsistent(c, freshId, name, ids);
    case DoClear(ids) => ClearKeepsConsistent(c, ids);
    case DoDelete(gone) => DeleteKeepsConsistent(c, gone);
    case NewVideo(v) =>
  }

  /** Over every sequence of writes both halves stay consistent. */
  lemma {:induction false} SeriesStayConsistent(cs: seq<Catalog>, ws: seq<Write>, k: nat)
    requires History(cs, ws) && Consistent(cs[0]) && k < |cs|
    ensures Consistent(cs[k])
  {
    if k > 0 {
      SeriesStayConsistent(cs, ws, k - 1);
      ApplyKeepsConsistent(cs[k - 1], ws[k - 1]);
    }
  }

  // ---------------------------------------------------------------- changed means changed

  lemma PullsIff(c: Catalog, ids: set<VideoId>, keep: Option<SeriesId>)
    ensures Pulls(c, ids, keep) <==> PullSeries(c, ids, keep) != c.series
  {
    if sid :| Affected(c, ids, keep, sid) {
      DropMembers(c.series[sid].videoIds, ids);
      var v :| v in c.series[sid].videoIds && v in ids;
      assert sid in PullSeries(c, ids, keep) ==> v !in PullSeries(c, ids, keep)[sid].videoIds;
    } else {
      assert PullSeries(c, ids, keep) == c.series;
    }
  }

  /** What `clear` reports: something was pulled, or a selected video referred to a series. */
  ghost predicate ClearChanges(c: Catalog, named: seq<VideoId>) {
    var selected := Resolve(c, named);
    Pulls(c, Elements(selected), None) || exists v :: v in selected && c.seriesOf[v].Some?
  }

  lemma ClearChangedIff(c: Catalog, named: seq<VideoId>)
    ensures ClearChanges(c, named) <==> Clear(c, named) != c
  {
    hide PullSeries, Affected;
    var selected := Resolve(c, named);
    PullsIff(c, Elements(selected), None);
    if v :| v in selected && c.seriesOf[v].Some? {
      assert Clear(c, named).seriesOf[v] == None;
    } else {
      assert Clear(c, named).seriesOf == c.seriesOf;
    }
  }

  /** What `assign` reports: the target is new, its list changes, or somebody joins. */
  predicate AssignChanges(c: Catalog, target: SeriesId, members: seq<VideoId>, selected: seq<VideoId>)
    requires NoDuplicates(members) && NoDuplicates(selected) && forall v :: v in selected ==> v in c.seriesOf
  {
    Place(members, selected) != members || Joining(c, selected, target) != {}
  }

  lemma AssignChangedIff(c: Catalog, target: SeriesId, name: string, members: seq<VideoId>, selected: seq<VideoId>)
    requires TargetOf(c, target, name, members) && selected != []
    requires NoDuplicates(members) && NoDuplicates(selected) && forall v :: v in selected ==> v in c.seriesOf
    ensures AssignChanges(c, target, members, selected) <==> AssignTo(c, target, name, members, selected) != c
  {
    hide Place, NoDuplicates;
    PlaceIsPlacement(members, selected);
    assert selected[0] in Place(members, selected);
    var c' := AssignTo(c, target, name, members, selected);
    var listed := c.(series := c.series[target := Series(name, Place(members, selected))]);
    var joining := Joining(c, selected, target);
    PullMembers(listed, joining, Some(target), target);
    assert c'.series[target].videoIds == Place(members, selected);
    if joining != {} {
      var v :| v in joining;
      assert c'.seriesOf[v] == Some(target);
    } else {
      assert c'.seriesOf == c.seriesOf;
      assert c'.series == listed.series;
    }
  }

  // ---------------------------------------------------------------- one video's edit

  /** The other listed videos already belong to the series being edited. */
  predicate StaysWithin(c: Catalog, current: VideoId, target: Option<SeriesId>, ordered: seq<VideoId>) {
    forall v :: v in ordered && v != current ==> v in c.seriesOf && target.Some? && c.seriesOf[v] == target
  }

  /**
   A single-video edit that passed both validators moves nobody else: only the edited video can change its
   series, and only its old series and the target can change their lists.
   */
  lemma SingleEditMovesOnlyTheVideo(c: Catalog, freshId: SeriesId, name: string,
                                    current: VideoId, ordered: seq<VideoId>)
    requires Consistent(c) && freshId !in c.series
    requires current in ordered && current in c.seriesOf && StaysWithin(c, current, FindSeries(c, name), ordered)
    ensures var c' := Assign(c, freshId, name, ordered);
      var target := FindSeries(c, name).GetOr(freshId);
      && c'.seriesOf.Keys == c.seriesOf.Keys
      && (forall v :: v in c.seriesOf && v != current ==> c'.seriesOf[v] == c.seriesOf[v])
      && c'.seriesOf[current] == Some(target)
      && (forall sid :: sid in c.series && sid != target && c.seriesOf[current] != Some(sid) ==>
            sid in c'.series && c'.series[sid] == c.series[sid])
      && (forall sid :: sid in c'.series ==> sid in c.series || sid == target)
  {
    hide Place, NoDuplicates, Drop, Resolve;
    var selected := Resolve(c, ordered);
    assert current in selected;
    var target := FindSeries(c, name).GetOr(freshId);
    assert Joining(c, selected, target) <= {current};
  }
}
