/** The series writes and reads as the services carry them out, over documents updated in place. */
module SeriesService {
  import opened Wrappers
  import opened Placement
  import opened SeriesCatalog

  /** One row of the panel's ordering. */
  datatype OrderEntry = OrderEntry(videoId: VideoId, order: int)

  datatype EditError = EmptyOrders | DuplicateVideo(video: VideoId) | DuplicateOrder(order: int)
                     | MissingCurrent | NotFound | Foreign

  // ---------------------------------------------------------------- ordering a request

  function Insert(e: OrderEntry, sorted: seq<OrderEntry>): seq<OrderEntry> {
    if sorted == [] || e.order < sorted[0].order then [e] + sorted else [sorted[0]] + Insert(e, sorted[1..])
  }

  /** Python's stable sort by `order`. */
  function SortByOrder(es: seq<OrderEntry>): seq<OrderEntry> {
    if es == [] then [] else Insert(es[|es| - 1], SortByOrder(es[..|es| - 1]))
  }

  predicate Ascending(es: seq<OrderEntry>) {
    forall i, j :: 0 <= i < j < |es| ==> es[i].order <= es[j].order
  }

  lemma {:induction false} InsertAdds(e: OrderEntry, sorted: seq<OrderEntry>)
    ensures multiset(Insert(e, sorted)) == multiset(sorted) + multiset{e}
    decreases |sorted|
  {
    if sorted != [] && e.order >= sorted[0].order {
      InsertAdds(e, sorted[1..]);
      assert sorted == [sorted[0]] + sorted[1..];
    }
  }

  lemma {:induction false} InsertAscending(e: OrderEntry, sorted: seq<OrderEntry>)
    requires Ascending(sorted)
    ensures Ascending(Insert(e, sorted))
    ensures Insert(e, sorted)[0].order == if sorted == [] || e.order < sorted[0].order then e.order else sorted[0].order
    decreases |sorted|
  {
    if sorted != [] && e.order >= sorted[0].order {
      InsertAscending(e, sorted[1..]);
      assert sorted[0].order <= Insert(e, sorted[1..])[0].order;
    }
  }

  /** Sorting rearranges the entries into ascending order. */
  lemma {:induction false} SortSorts(es: seq<OrderEntry>)
    ensures Ascending(SortByOrder(es)) && multiset(SortByOrder(es)) == multiset(es)
    decreases |es|
  {
    if es != [] {
      SortSorts(es[..|es| - 1]);
      InsertAscending(es[|es| - 1], SortByOrder(es[..|es| - 1]));
      InsertAdds(es[|es| - 1], SortByOrder(es[..|es| - 1]));
      assert es == es[..|es| - 1] + [es[|es| - 1]];
    }
  }

  function Ids(es: seq<OrderEntry>): (r: seq<VideoId>)
    ensures |r| == |es| && forall i :: 0 <= i < |r| ==> r[i] == es[i].videoId
  {
    seq(|es|, i requires 0 <= i < |es| => es[i].videoId)
  }

  predicate Unambiguous(es: seq<OrderEntry>) {
    forall i, j :: 0 <= i < j < |es| ==> es[i].videoId != es[j].videoId && es[i].order != es[j].order
  }

  lemma SameEntriesSameIds(a: seq<OrderEntry>, b: seq<OrderEntry>, v: VideoId)
    requires multiset(a) == multiset(b) && v in Ids(a)
    ensures v in Ids(b)
  {
    var i :| 0 <= i < |a| && a[i].videoId == v;
    assert a[i] in multiset(a);
    var j :| 0 <= j < |b| && b[j] == a[i];
    assert Ids(b)[j] == v;
  }

  lemma SortKeepsIds(es: seq<OrderEntry>)
    ensures forall v :: v in Ids(SortByOrder(es)) <==> v in Ids(es)
  {
    SortSorts(es);
    forall v ensures v in Ids(SortByOrder(es)) <==> v in Ids(es) {
      if v in Ids(es) { SameEntriesSameIds(es, SortByOrder(es), v); }
      if v in Ids(SortByOrder(es)) { SameEntriesSameIds(SortByOrder(es), es, v); }
    }
  }

  /**
   `_validated_series_sequence`: the orders are accepted exactly when they are unambiguous and include the
   video being edited, and then read as the sequence their numbers give.
   */
  method ValidatedSeriesSequence(current: VideoId, orders: seq<OrderEntry>) returns (r: Result<seq<VideoId>, EditError>)
    ensures r.Ok? <==> orders != [] && Unambiguous(orders) && current in Ids(orders)
    ensures r.Ok? ==> r.result == Ids(SortByOrder(orders))
    ensures r == Err(EmptyOrders) <==> orders == []
    ensures r == Err(MissingCurrent) <==> orders != [] && Unambiguous(orders) && current !in Ids(orders)
    ensures r.Err? && r.error.DuplicateVideo? ==>
      exists i, j :: 0 <= i < j < |orders| && orders[i].videoId == orders[j].videoId == r.error.video
    ensures r.Err? && r.error.DuplicateOrder? ==>
      exists i, j :: 0 <= i < j < |orders| && orders[i].order == orders[j].order == r.error.order
    ensures r.Err? ==> !r.error.NotFound? && !r.error.Foreign?
  {
    if orders == [] {
      return Err(EmptyOrders);
    }
    var seenIds: set<VideoId>, seenOrders: set<int> := {}, {};
    for i := 0 to |orders|
      invariant forall v :: v in seenIds <==> exists k :: 0 <= k < i && orders[k].videoId == v
      invariant forall n :: n in seenOrders <==> exists k :: 0 <= k < i && orders[k].order == n
      invariant Unambiguous(orders[..i])
    {
      var entry := orders[i];
      if entry.videoId in seenIds {
        return Err(DuplicateVideo(entry.videoId));
      }
      if entry.order in seenOrders {
        return Err(DuplicateOrder(entry.order));
      }
      seenIds := seenIds + {entry.videoId};
      seenOrders := seenOrders + {entry.order};
    }
    assert orders[..|orders|] == orders;
    if current !in seenIds {
      return Err(MissingCurrent);
    }
    var k :| 0 <= k < |orders| && orders[k].videoId == current;
    assert Ids(orders)[k] == current;
    r := Ok(Ids(SortByOrder(orders)));
  }

  // ---------------------------------------------------------------- what the loops leave

  /** The video documents of the valid categories. */
  function Wanted(categoryOf: map<VideoId, string>, validCategories: set<string>): set<VideoId> {
    set v | v in categoryOf && categoryOf[v] in validCategories
  }

  /** What is listed of a series are its wanted videos, at ascending positions of the series, none missed. */
  lemma ListedInSeriesOrder(members: seq<VideoId>, wanted: set<VideoId>) returns (at: seq<nat>)
    ensures Placement.Ascending(at) && |at| == |Filter(members, wanted, true)|
    ensures forall k :: 0 <= k < |at| ==> at[k] < |members| && Filter(members, wanted, true)[k] == members[at[k]]
    ensures forall i :: 0 <= i < |members| ==> (i in at <==> members[i] in wanted)
  {
    at := Positions(members, wanted, true);
  }

  /** The update of the affected series and the deletion of the emptied ones are the pull. */
  lemma PulledInPlace(c: Catalog, ids: set<VideoId>, keep: Option<SeriesId>, affected: set<SeriesId>)
    requires forall sid :: sid in affected <==> Affected(c, ids, keep, sid)
    ensures var updated := map sid | sid in c.series ::
              if sid in affected then c.series[sid].(videoIds := Drop(c.series[sid].videoIds, ids)) else c.series[sid];
            (map sid | sid in updated && !(sid in affected && updated[sid].videoIds == []) :: updated[sid])
            == PullSeries(c, ids, keep)
  {
    hide Lists, Drop;
  }

  /** Clearing the references of those that have one is clearing everybody's. */
  lemma ClearedOnlyReferring(seriesOf: map<VideoId, Option<SeriesId>>, selected: seq<VideoId>,
                             ids: set<VideoId>, referencing: set<VideoId>)
    requires forall v :: v in selected ==> v in seriesOf
    requires forall v :: v in ids <==> v in selected
    requires forall v :: v in referencing <==> v in selected && seriesOf[v].Some?
    ensures (map v | v in seriesOf :: if v in referencing then None else seriesOf[v]) == SetSeries(seriesOf, ids, None)
    ensures referencing == {} ==> SetSeries(seriesOf, ids, None) == seriesOf
  {
    var to := SetSeries(seriesOf, ids, None);
    forall v | v in seriesOf ensures to[v] == if v in referencing then None else seriesOf[v] {
      if v in ids && v !in referencing {
        assert v in selected && seriesOf[v].None?;
      }
    }
  }

  /** Where a video is first named. */
  function FirstAt(named: seq<VideoId>, v: VideoId): nat {
    if named == [] || named[0] == v then 0 else 1 + FirstAt(named[1..], v)
  }

  lemma {:induction false} FirstAtFront(named: seq<VideoId>, v: VideoId, w: VideoId)
    ensures FirstAt(named, v) <= |named| && (FirstAt(named, v) < |named| <==> v in named)
    ensures v in named ==> FirstAt(named + [w], v) == FirstAt(named, v)
    ensures v !in named ==> FirstAt(named + [v], v) == |named|
  {
    if named != [] {
      FirstAtFront(named[1..], v, w);
      assert (named + [w])[1..] == named[1..] + [w] && (named + [v])[1..] == named[1..] + [v];
    }
  }

  /** The videos stand in the order in which they were first named. */
  predicate InNamedOrder(named: seq<VideoId>, resolved: seq<VideoId>) {
    forall i, j :: 0 <= i < j < |resolved| ==> FirstAt(named, resolved[i]) < FirstAt(named, resolved[j])
  }

  lemma {:induction false} ResolveKeepsOrder(c: Catalog, named: seq<VideoId>)
    ensures InNamedOrder(named, Resolve(c, named))
  {
    if named != [] {
      var front, v := named[..|named| - 1], named[|named| - 1];
      var rest, all := Resolve(c, front), Resolve(c, named);
      ResolveKeepsOrder(c, front);
      assert named == front + [v];
      forall i | 0 <= i < |rest| ensures FirstAt(named, rest[i]) == FirstAt(front, rest[i]) < |front| {
        assert rest[i] in rest;
        FirstAtFront(front, rest[i], v);
      }
      if v in c.seriesOf && v !in rest {
        FirstAtFront(front, v, v);
      }
    }
  }

  // ---------------------------------------------------------------- the service

  class SeriesStore {
    var series: map<SeriesId, Series>
    var seriesOf: map<VideoId, Option<SeriesId>>

    constructor (c: Catalog)
      ensures View() == c
    {
      series, seriesOf := c.series, c.seriesOf;
    }

    ghost function View(): Catalog
      reads this
    {
      Catalog(series, seriesOf)
    }

    /** The named videos that still exist, in the order they were named, without repeats. */
    method ResolveIds(named: seq<VideoId>) returns (resolved: seq<VideoId>)
      ensures resolved == Resolve(View(), named)
      ensures NoDuplicates(resolved) && InNamedOrder(named, resolved)
      ensures forall v :: v in resolved <==> v in named && v in seriesOf
    {
      ResolveKeepsOrder(View(), named);
      resolved := [];
      for i := 0 to |named|
        invariant resolved == Resolve(View(), named[..i])
      {
        assert named[..i + 1][..i] == named[..i];
        if named[i] in seriesOf && named[i] !in resolved {
          resolved := resolved + [named[i]];
        }
      }
      assert named[..|named|] == named;
    }

    method FindByName(name: string) returns (found: Option<SeriesId>)
      requires NamesUnique(View())
      ensures found == FindSeries(View(), name)
    {
      found := None;
      var left := series.Keys;
      while left != {}
        invariant left <= series.Keys
        invariant found.Some? ==> Named(View(), name, found.value)
        invariant found.None? ==> forall sid :: sid in series.Keys - left ==> series[sid].name != name
        decreases |left|
      {
        var sid :| sid in left;
        if series[sid].name == name {
          found := Some(sid);
        }
        left := left - {sid};
      }
      assert found.None? ==> forall sid :: !Named(View(), name, sid);
    }

    /** The ids leave every series but `keep`; emptied series go. Says whether any series listed them. */
    method PullIds(ids: set<VideoId>, keep: Option<SeriesId>) returns (pulled: bool)
      modifies this`series
      ensures View() == Pull(old(View()), ids, keep)
      ensures pulled <==> View() != old(View())
    {
      hide Drop, PullSeries;
      PullsIff(View(), ids, keep);
      var affected := set sid | sid in series && Lists(series[sid], ids) && keep != Some(sid);
      pulled := affected != {};
      if pulled {
        var sid :| sid in affected;
        assert Affected(View(), ids, keep, sid);
      }
      assert forall sid :: Affected(View(), ids, keep, sid) ==> sid in affected;
      series := map sid | sid in series ::
        if sid in affected then series[sid].(videoIds := Drop(series[sid].videoIds, ids)) else series[sid];
      series := map sid | sid in series && !(sid in affected && series[sid].videoIds == []) :: series[sid];
      PulledInPlace(old(View()), ids, keep, affected);
    }

    /** `assign`; `freshId` is the id the database gives a series it has to insert. */
    method AssignSelection(freshId: SeriesId, name: string, named: seq<VideoId>)
        returns (target: Option<SeriesId>, changed: bool)
      requires Consistent(View()) && freshId !in series
      modifies this
      ensures View() == Assign(old(View()), freshId, name, named) && Consistent(View())
      ensures changed <==> View() != old(View())
      ensures Resolve(old(View()), named) != [] ==>
        target == Some(FindSeries(old(View()), name).GetOr(freshId))
    {
      hide Resolve, PullSeries, Place, ListsMatch, ReferencesMatch;
      ghost var c := View();
      AssignKeepsConsistent(c, freshId, name, named);
      var selected := ResolveIds(named);
      var found := FindByName(name);
      if selected == [] {
        return found, false;
      }
      var members := if found.Some? then series[found.value].videoIds else [];
      var sid := found.GetOr(freshId);
      assert found.None? ==> forall s :: s in c.series && c.series[s].name == name ==> Named(c, name, s);
      AssignChangedIff(c, sid, name, members, selected);
      AssignToPullsListed(c, sid, name, members, selected);
      var newIds := Place(members, selected);
      changed := newIds != members;
      if changed {
        series := series[sid := Series(name, newIds)];
      }
      assert series == c.series[sid := Series(name, newIds)];
      var joining := set v | v in selected && seriesOf[v] != Some(sid);
      if joining != {} {
        var pulled := PullIds(joining, Some(sid));
        seriesOf := map v | v in seriesOf :: if v in joining then Some(sid) else seriesOf[v];
        changed := true;
      }
      target := Some(sid);
    }

    lemma AssignToPullsListed(c: Catalog, target: SeriesId, name: string, members: seq<VideoId>, selected: seq<VideoId>)
      requires NoDuplicates(members) && NoDuplicates(selected) && selected != []
      requires forall v :: v in selected ==> v in c.seriesOf
      ensures Place(members, selected) != []
      ensures var listed := c.(series := c.series[target := Series(name, Place(members, selected))]);
        Joining(c, selected, target) == {} ==> AssignTo(c, target, name, members, selected) == listed
    {
      hide Place;
      PlacedMembers(members, selected);
      assert selected[0] in Place(members, selected);
      if Joining(c, selected, target) == {} {
        assert SetSeries(c.seriesOf, {}, Some(target)) == c.seriesOf;
        var listed := c.(series := c.series[target := Series(name, Place(members, selected))]);
        assert PullSeries(listed, {}, Some(target)) == listed.series;
      }
    }

    method ClearSelection(named: seq<VideoId>) returns (changed: bool)
      requires Consistent(View())
      modifies this
      ensures View() == Clear(old(View()), named) && Consistent(View())
      ensures changed <==> View() != old(View())
    {
      hide Resolve, PullSeries, ListsMatch, ReferencesMatch;
      ghost var c := View();
      ClearKeepsConsistent(c, named);
      ClearChangedIff(c, named);
      var selected := ResolveIds(named);
      var ids := set v | v in selected;
      PullsIff(c, ids, None);
      var pulled := PullIds(ids, None);
      var referencing := set v | v in selected && seriesOf[v].Some?;
      if referencing != {} {
        seriesOf := map v | v in seriesOf :: if v in referencing then None else seriesOf[v];
      }
      ClearedOnlyReferring(c.seriesOf, selected, ids, referencing);
      changed := pulled || referencing != {};
      if referencing != {} {
        var v :| v in referencing;
        assert v in selected && c.seriesOf[v].Some?;
      }
    }

    /** Deleted videos: their documents go first, then the series side is settled. */
    method DeleteVideos(gone: set<VideoId>)
      requires Consistent(View())
      modifies this
      ensures View() == DeleteThenDetach(old(View()), gone) && Consistent(View())
    {
      DeleteKeepsConsistent(View(), gone);
      seriesOf := map v | v in seriesOf && v !in gone :: seriesOf[v];
      var pulled := PullIds(gone, None);
    }

    /**
     The videos a series lists, in series order, restricted to the valid categories; `categoryOf` are the video
     documents, and an id without one is skipped.
     */
    method GetVideosInSeries(name: string, categoryOf: map<VideoId, string>, validCategories: set<string>)
        returns (listed: seq<VideoId>)
      requires NamesUnique(View())
      ensures name == "" || validCategories == {} || FindSeries(View(), name).None? ==> listed == []
      ensures name != "" && validCategories != {} ==> forall sid :: Named(View(), name, sid) ==>
        && listed == Filter(series[sid].videoIds, Wanted(categoryOf, validCategories), true)
        && forall v :: v in listed <==>
             v in series[sid].videoIds && v in categoryOf && categoryOf[v] in validCategories
    {
      if name == "" || validCategories == {} {
        return [];
      }
      var found := FindByName(name);
      if found.None? {
        return [];
      }
      listed := [];
      var ids := series[found.value].videoIds;
      for i := 0 to |ids|
        invariant listed == Filter(ids[..i], Wanted(categoryOf, validCategories), true)
        invariant forall v :: v in listed <==> v in ids[..i] && v in categoryOf && categoryOf[v] in validCategories
      {
        assert ids[..i + 1][..i] == ids[..i];
        if ids[i] in categoryOf && categoryOf[ids[i]] in validCategories {
          listed := listed + [ids[i]];
        }
      }
      assert ids[..|ids|] == ids;
    }

    /** The positions in one series, added to those found so far. */
    method AddPositions(sid: SeriesId, before: map<VideoId, (string, nat)>)
        returns (positions: map<VideoId, (string, nat)>)
      requires Consistent(View()) && sid in series
      requires forall v :: v in before ==> IsPosition(v, before[v])
      ensures forall v :: v in positions <==> v in before || v in series[sid].videoIds
      ensures forall v :: v in positions ==> IsPosition(v, positions[v])
    {
      hide NoDuplicates;
      positions := before;
      var ids := series[sid].videoIds;
      for i := 0 to |ids|
        invariant forall v :: v in positions <==> v in before || v in ids[..i]
        invariant forall v :: v in positions ==> IsPosition(v, positions[v])
      {
        assert ids[i] in ids && seriesOf[ids[i]] == Some(sid);
        positions := positions[ids[i] := (series[sid].name, i + 1)];
      }
      assert ids[..|ids|] == ids;
    }

    /** The positions in all of the given series. */
    method AllPositions(seriesIds: set<SeriesId>) returns (positions: map<VideoId, (string, nat)>)
      requires Consistent(View()) && seriesIds <= series.Keys
      ensures forall v :: v in positions <==> v in seriesOf && seriesOf[v].Some? && seriesOf[v].value in seriesIds
      ensures forall v :: v in positions ==> IsPosition(v, positions[v])
    {
      hide NoDuplicates, WellListed, NamesUnique, IsPosition;
      positions := map[];
      var left := seriesIds;
      while left != {}
        invariant left <= seriesIds
        invariant forall v :: v in positions <==>
            v in seriesOf && seriesOf[v].Some? && seriesOf[v].value in seriesIds - left
        invariant forall v :: v in positions ==> IsPosition(v, positions[v])
        decreases |left|
      {
        var sid :| sid in left;
        positions := AddPositions(sid, positions);
        left := left - {sid};
      }
    }

    /** Where each video sits: its series' name and its 1-based position; videos in no series are absent. */
    method PositionsOf(videos: seq<VideoId>) returns (placements: map<VideoId, (string, nat)>)
      requires Consistent(View()) && forall v :: v in videos ==> v in seriesOf
      ensures forall v :: v in placements <==> v in videos && seriesOf[v].Some?
      ensures forall v :: v in placements ==> IsPosition(v, placements[v])
    {
      hide NoDuplicates, WellListed, NamesUnique;
      var seriesIds := set v | v in videos && seriesOf[v].Some? :: seriesOf[v].value;
      assert seriesIds <= series.Keys;
      hide ListsMatch, ReferencesMatch;
      var positions := AllPositions(seriesIds);
      placements := Select(videos, positions);
    }

    /** The positions of the given videos, as far as there are any. */
    static method Select(videos: seq<VideoId>, positions: map<VideoId, (string, nat)>)
        returns (placements: map<VideoId, (string, nat)>)
      ensures placements == map v | v in positions && v in videos :: positions[v]
    {
      placements := map[];
      for i := 0 to |videos|
        invariant placements == map v | v in positions && v in videos[..i] :: positions[v]
      {
        if videos[i] in positions {
          placements := placements[videos[i] := positions[videos[i]]];
        }
      }
      assert videos[..|videos|] == videos;
    }

    /** `p` names the video's series and the video's 1-based position in it. */
    predicate IsPosition(v: VideoId, p: (string, nat))
      reads this
    {
      && v in seriesOf && seriesOf[v].Some? && seriesOf[v].value in series
      && var s := series[seriesOf[v].value];
         p.0 == s.name && 1 <= p.1 <= |s.videoIds| && s.videoIds[p.1 - 1] == v
    }

    /** `_assert_orders_stay_within_the_series`. */
    method OrdersStayWithin(current: VideoId, name: string, ordered: seq<VideoId>) returns (r: Result<bool, EditError>)
      requires NamesUnique(View())
      ensures r.Ok? <==> StaysWithin(View(), current, FindSeries(View(), name), ordered)
      ensures r == Err(NotFound) <==> exists v :: v in ordered && v != current && v !in seriesOf
      ensures r.Err? ==> r.error in {NotFound, Foreign}
    {
      var target := FindByName(name);
      if missing: VideoId :| missing in ordered && missing != current && missing !in seriesOf {
        return Err(NotFound);
      }
      if foreign: VideoId :| foreign in ordered && foreign != current && (target.None? || seriesOf[foreign] != target) {
        return Err(Foreign);
      }
      r := Ok(true);
    }

    /**
     The series part of a single-video edit.  It is refused, changing nothing, exactly when a validator
     refuses it; accepted, it moves the edited video and nobody else.
     */
    method EditSeries(freshId: SeriesId, current: VideoId, name: string, orders: seq<OrderEntry>)
        returns (r: Result<bool, EditError>)
      requires Consistent(View()) && freshId !in series && current in seriesOf
      modifies this
      ensures Consistent(View())
      ensures r.Err? ==> View() == old(View())
      ensures r.Ok? <==>
        orders != [] && Unambiguous(orders) && current in Ids(orders)
        && StaysWithin(old(View()), current, FindSeries(old(View()), name), Ids(orders))
      ensures r.Ok? ==> seriesOf.Keys == old(seriesOf).Keys && current in seriesOf && seriesOf[current].Some?
      ensures r.Ok? ==> forall v :: v in seriesOf && v != current ==> seriesOf[v] == old(seriesOf)[v]
      ensures r.Ok? ==> forall sid ::
        sid in old(series) && seriesOf[current] != Some(sid) && old(seriesOf)[current] != Some(sid) ==>
        sid in series && series[sid] == old(series)[sid]
      ensures r.Ok? ==> (r.result <==> View() != old(View()))
    {
      hide Resolve, PullSeries, Place, ListsMatch, ReferencesMatch, Assign;
      var sequence := ValidatedSeriesSequence(current, orders);
      if sequence.Err? {
        return Err(sequence.error);
      }
      SortKeepsIds(orders);
      var ordered := sequence.result;
      var within := OrdersStayWithin(current, name, ordered);
      if within.Err? {
        return Err(within.error);
      }
      SingleEditMovesOnlyTheVideo(View(), freshId, name, current, ordered);
      var target, changed := AssignSelection(freshId, name, ordered);
      r := Ok(changed);
    }
  }
}
