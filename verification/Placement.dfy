/**
 `_place`: where a selection goes in a series.  The selection takes the slots it already held, plus one
 appended slot per newcomer, and fills them in the requested order.
 */
module Placement {
  type VideoId = nat

  predicate NoDuplicates(s: seq<VideoId>) {
    forall i, j :: 0 <= i < j < |s| ==> s[i] != s[j]
  }

  /** The members of `s` that are, or are not, in `c`, in order. */
  function Filter(s: seq<VideoId>, c: set<VideoId>, keepChosen: bool): seq<VideoId> {
    if s == [] then []
    else
      var rest := Filter(s[..|s| - 1], c, keepChosen);
      if (s[|s| - 1] in c) == keepChosen then rest + [s[|s| - 1]] else rest
  }

  predicate Ascending(r: seq<nat>) {
    forall j, k :: 0 <= j < k < |r| ==> r[j] < r[k]
  }

  /** Every listed position is one that is kept, and holds what the filter kept. */
  predicate Keeps(s: seq<VideoId>, c: set<VideoId>, keepChosen: bool, r: seq<nat>) {
    && |r| == |Filter(s, c, keepChosen)|
    && (forall k :: 0 <= k < |r| ==> r[k] < |s| && (s[r[k]] in c) == keepChosen)
    && (forall k :: 0 <= k < |r| ==> Filter(s, c, keepChosen)[k] == s[r[k]])
  }

  predicate MissesNone(s: seq<VideoId>, c: set<VideoId>, keepChosen: bool, r: seq<nat>) {
    forall i :: 0 <= i < |s| && (s[i] in c) == keepChosen ==> i in r
  }

  /** `r` lists, in ascending order, exactly the positions that `Filter` keeps. */
  predicate ArePositions(s: seq<VideoId>, c: set<VideoId>, keepChosen: bool, r: seq<nat>) {
    Keeps(s, c, keepChosen, r) && Ascending(r) && MissesNone(s, c, keepChosen, r)
  }

  /** What the filter and the positions are, one member further on. */
  function Longer(s: seq<VideoId>, c: set<VideoId>, keepChosen: bool, rest: seq<nat>): seq<nat>
    requires s != []
  {
    if (s[|s| - 1] in c) == keepChosen then rest + [|s| - 1] else rest
  }

  lemma FilterLonger(s: seq<VideoId>, c: set<VideoId>, keepChosen: bool)
    requires s != []
    ensures var front := Filter(s[..|s| - 1], c, keepChosen);
      Filter(s, c, keepChosen) == if (s[|s| - 1] in c) == keepChosen then front + [s[|s| - 1]] else front
  {
  }

  lemma LongerKeeps(s: seq<VideoId>, c: set<VideoId>, keepChosen: bool, rest: seq<nat>)
    requires s != [] && Keeps(s[..|s| - 1], c, keepChosen, rest)
    ensures Keeps(s, c, keepChosen, Longer(s, c, keepChosen, rest))
  {
    FilterLonger(s, c, keepChosen);
    hide Filter;
    var front, r := s[..|s| - 1], Longer(s, c, keepChosen, rest);
    forall k | 0 <= k < |r| ensures r[k] < |s| && s[r[k]] == Filter(s, c, keepChosen)[k] {
      if k < |rest| {
        assert r[k] == rest[k] && front[rest[k]] == s[rest[k]];
      }
    }
  }

  lemma LongerAscends(s: seq<VideoId>, c: set<VideoId>, keepChosen: bool, rest: seq<nat>)
    requires s != [] && Ascending(rest) && forall k :: 0 <= k < |rest| ==> rest[k] < |s| - 1
    ensures Ascending(Longer(s, c, keepChosen, rest))
  {
  }

  lemma LongerMissesNone(s: seq<VideoId>, c: set<VideoId>, keepChosen: bool, rest: seq<nat>)
    requires s != [] && MissesNone(s[..|s| - 1], c, keepChosen, rest)
    ensures MissesNone(s, c, keepChosen, Longer(s, c, keepChosen, rest))
  {
    var front, r := s[..|s| - 1], Longer(s, c, keepChosen, rest);
    forall i | 0 <= i < |s| && (s[i] in c) == keepChosen ensures i in r {
      if i < |front| {
        assert front[i] == s[i] && i in rest;
      } else {
        assert r[|rest|] == i;
      }
    }
  }

  lemma OneMorePosition(s: seq<VideoId>, c: set<VideoId>, keepChosen: bool, rest: seq<nat>)
    requires s != [] && ArePositions(s[..|s| - 1], c, keepChosen, rest)
    ensures ArePositions(s, c, keepChosen, Longer(s, c, keepChosen, rest))
  {
    LongerKeeps(s, c, keepChosen, rest);
    LongerAscends(s, c, keepChosen, rest);
    LongerMissesNone(s, c, keepChosen, rest);
  }

  /** Their positions, ascending. */
  function Positions(s: seq<VideoId>, c: set<VideoId>, keepChosen: bool): (r: seq<nat>)
    ensures ArePositions(s, c, keepChosen, r)
  {
    if s == [] then []
    else
      var rest := Positions(s[..|s| - 1], c, keepChosen);
      OneMorePosition(s, c, keepChosen, rest);
      Longer(s, c, keepChosen, rest)
  }

  function Range(lo: nat, hi: nat): seq<nat>
    requires lo <= hi
  {
    seq(hi - lo, i requires 0 <= i < hi - lo => lo + i)
  }

  /** The positions below `n` that are not taken, ascending. */
  function FreePositions(n: nat, taken: seq<nat>): (r: seq<nat>)
    ensures forall k :: 0 <= k < |r| ==> r[k] < n && r[k] !in taken
    ensures forall j, k :: 0 <= j < k < |r| ==> r[j] < r[k]
    ensures forall i :: 0 <= i < n && i !in taken ==> i in r
  {
    if n == 0 then []
    else if n - 1 in taken then FreePositions(n - 1, taken)
    else FreePositions(n - 1, taken) + [n - 1]
  }

  function IndexOf(s: seq<nat>, x: nat): (i: nat)
    requires x in s
    ensures i < |s| && s[i] == x
  {
    if s[0] == x then 0 else 1 + IndexOf(s[1..], x)
  }

  function Elements(s: seq<VideoId>): set<VideoId> {
    set v | v in s
  }

  /** Everything `Place` computes on the way. */
  function Occupied(members: seq<VideoId>, selection: seq<VideoId>): seq<nat> {
    Positions(members, Elements(selection), true)
  }

  function Slots(members: seq<VideoId>, selection: seq<VideoId>): seq<nat>
    requires |Occupied(members, selection)| <= |selection|
  {
    var occupied := Occupied(members, selection);
    occupied + Range(|members|, |members| + |selection| - |occupied|)
  }

  function Kept(members: seq<VideoId>, selection: seq<VideoId>): seq<VideoId> {
    Filter(members, Elements(selection), false)
  }

  function Free(members: seq<VideoId>, selection: seq<VideoId>): seq<nat>
    requires |Occupied(members, selection)| <= |selection|
  {
    FreePositions(|selection| + |Kept(members, selection)|, Slots(members, selection))
  }

  /** The merged map of slots to selection and free positions to the others, read in ascending order. */
  function Place(members: seq<VideoId>, selection: seq<VideoId>): seq<VideoId>
    requires NoDuplicates(members) && NoDuplicates(selection)
  {
    OccupiedFits(members, selection);
    SlotsAndFreePartition(members, selection);
    var slots, free, kept := Slots(members, selection), Free(members, selection), Kept(members, selection);
    seq(|selection| + |kept|, i requires 0 <= i < |selection| + |kept| =>
      if i in slots then selection[IndexOf(slots, i)] else kept[IndexOf(free, i)])
  }

  // ---------------------------------------------------------------- the slots add up

  lemma {:induction false} Sizes(s: seq<VideoId>, c: set<VideoId>)
    ensures |Positions(s, c, true)| + |Positions(s, c, false)| == |s|
  {
    if s != [] {
      Sizes(s[..|s| - 1], c);
    }
  }

  lemma {:induction false} DistinctFit(s: seq<VideoId>, t: seq<VideoId>)
    requires NoDuplicates(s) && forall v :: v in s ==> v in t
    ensures |s| <= |t|
    decreases |s|
  {
    if s != [] {
      var v := s[|s| - 1];
      assert v in s;
      var k :| 0 <= k < |t| && t[k] == v;
      var t' := t[..k] + t[k + 1..];
      forall u | u in s[..|s| - 1] ensures u in t' {
        assert u in s;
        var j :| 0 <= j < |t| && t[j] == u;
        assert j != k;
        assert t'[if j < k then j else j - 1] == u;
      }
      DistinctFit(s[..|s| - 1], t');
    }
  }

  lemma FilterNoDuplicates(s: seq<VideoId>, c: set<VideoId>, keepChosen: bool)
    requires NoDuplicates(s)
    ensures NoDuplicates(Filter(s, c, keepChosen))
  {
    var p := Positions(s, c, keepChosen);
    forall i, j | 0 <= i < j < |p| ensures Filter(s, c, keepChosen)[i] != Filter(s, c, keepChosen)[j] {
      assert p[i] < p[j];
    }
  }

  lemma OccupiedFits(members: seq<VideoId>, selection: seq<VideoId>)
    requires NoDuplicates(members)
    ensures |Occupied(members, selection)| <= |selection|
  {
    var chosen := Filter(members, Elements(selection), true);
    FilterNoDuplicates(members, Elements(selection), true);
    forall v | v in chosen ensures v in selection {
      var k :| 0 <= k < |chosen| && chosen[k] == v;
      assert members[Occupied(members, selection)[k]] == v;
    }
    DistinctFit(chosen, selection);
  }

  lemma HasElement(s: seq<nat>)
    ensures s == [] || exists x :: x in s
  {
    assert s == [] || s[0] in s;
  }

  /** Two ascending sequences with the same elements are the same. */
  lemma {:induction false} AscendingUnique(a: seq<nat>, b: seq<nat>)
    requires forall j, k :: 0 <= j < k < |a| ==> a[j] < a[k]
    requires forall j, k :: 0 <= j < k < |b| ==> b[j] < b[k]
    requires forall x :: x in a <==> x in b
    ensures a == b
    decreases |a|
  {
    if a == [] {
      HasElement(b);
    } else {
      HasElement(a);
      HasElement(b);
      assert a[|a| - 1] in b && b[|b| - 1] in a;
      var a', b' := a[..|a| - 1], b[..|b| - 1];
      assert a[|a| - 1] == b[|b| - 1];
      forall x ensures x in a' <==> x in b' {
        if x in a' {
          assert x in a;
          var k :| 0 <= k < |b| && b[k] == x;
          assert k < |b| - 1;
        }
        if x in b' {
          assert x in b;
          var k :| 0 <= k < |a| && a[k] == x;
          assert k < |a| - 1;
        }
      }
      AscendingUnique(a', b');
    }
  }

  /** A position is a slot exactly when no unselected member stands there. */
  lemma SlotOrUnselected(members: seq<VideoId>, selection: seq<VideoId>, i: nat)
    requires |Occupied(members, selection)| <= |selection|
    requires i < |members| + |selection| - |Occupied(members, selection)|
    ensures i in Slots(members, selection) <==> i !in Positions(members, Elements(selection), false)
  {
    var occupied, slots := Occupied(members, selection), Slots(members, selection);
    if i < |members| {
      if members[i] in Elements(selection) {
        var k :| 0 <= k < |occupied| && occupied[k] == i;
        assert slots[k] == i;
      }
    } else {
      assert slots[|occupied| + i - |members|] == i;
    }
  }

  /** The free positions are exactly where the unselected members stand. */
  lemma SlotsAndFreePartition(members: seq<VideoId>, selection: seq<VideoId>)
    requires NoDuplicates(members) && |Occupied(members, selection)| <= |selection|
    ensures Free(members, selection) == Positions(members, Elements(selection), false)
    ensures |Slots(members, selection)| == |selection|
    ensures |selection| + |Kept(members, selection)| >= |members|
  {
    hide Filter, Positions, FreePositions;
    var unchosen := Positions(members, Elements(selection), false);
    Sizes(members, Elements(selection));
    forall i | 0 <= i < |selection| + |Kept(members, selection)|
      ensures i in Slots(members, selection) <==> i !in unchosen
    {
      SlotOrUnselected(members, selection, i);
    }
    AscendingUnique(Free(members, selection), unchosen);
  }

  // ---------------------------------------------------------------- what placing means

  /**
   A placement of `selection` into `members`: nothing is repeated, exactly the members and the selection
   are there, every unselected member keeps its index, and the selected ids come in the requested order.
   */
  ghost predicate IsPlacement(members: seq<VideoId>, selection: seq<VideoId>, r: seq<VideoId>) {
    && NoDuplicates(r)
    && (forall v :: v in r <==> v in members || v in selection)
    && (forall i :: 0 <= i < |members| && members[i] !in selection ==> i < |r| && r[i] == members[i])
    && Filter(r, Elements(selection), true) == selection
  }

  lemma SlotsAscend(members: seq<VideoId>, selection: seq<VideoId>)
    requires |Occupied(members, selection)| <= |selection|
    ensures forall j, k :: 0 <= j < k < |Slots(members, selection)| ==>
      Slots(members, selection)[j] < Slots(members, selection)[k]
  {
    hide Filter, Positions;
  }

  /** `Place`, position by position. */
  ghost predicate PlacedAt(members: seq<VideoId>, selection: seq<VideoId>, r: seq<VideoId>, slots: seq<nat>) {
    && |members| <= |r| && |slots| == |selection|
    && (forall k :: 0 <= k < |slots| ==> slots[k] < |r| && r[slots[k]] == selection[k])
    && (forall j, k :: 0 <= j < k < |slots| ==> slots[j] < slots[k])
    && (forall i :: 0 <= i < |members| && members[i] !in selection ==> i !in slots && r[i] == members[i])
    && (forall i :: 0 <= i < |r| && i !in slots ==> i < |members| && members[i] !in selection)
  }

  lemma PlaceAt(members: seq<VideoId>, selection: seq<VideoId>) returns (slots: seq<nat>)
    requires NoDuplicates(members) && NoDuplicates(selection)
    ensures PlacedAt(members, selection, Place(members, selection), slots)
  {
    hide Filter, Positions, FreePositions, Range, IndexOf;
    OccupiedFits(members, selection);
    SlotsAndFreePartition(members, selection);
    SlotsAscend(members, selection);
    slots := Slots(members, selection);
    hide Slots, Free;
    var r, free := Place(members, selection), Free(members, selection);
    forall k | 0 <= k < |slots| ensures slots[k] < |r| && r[slots[k]] == selection[k] {
      SlotBounds(members, selection, k);
      assert slots[k] in slots;
      assert IndexOf(slots, slots[k]) == k;
    }
    forall i | 0 <= i < |members| && members[i] !in selection ensures i !in slots && r[i] == members[i] {
      assert i in free;
    }
    forall i | 0 <= i < |r| && i !in slots ensures i < |members| && members[i] !in selection {
      FreeOrSlot(members, selection, i);
      assert i in free;
    }
  }

  lemma SlotBounds(members: seq<VideoId>, selection: seq<VideoId>, k: nat)
    requires |Occupied(members, selection)| <= |selection| && k < |Slots(members, selection)|
    ensures Slots(members, selection)[k] < |selection| + |Kept(members, selection)|
  {
    Sizes(members, Elements(selection));
  }

  lemma FreeOrSlot(members: seq<VideoId>, selection: seq<VideoId>, i: nat)
    requires |Occupied(members, selection)| <= |selection| && i < |selection| + |Kept(members, selection)|
    ensures i in Slots(members, selection) || i in Free(members, selection)
  {
  }

  /** `Place` computes a placement. */
  lemma PlaceIsPlacement(members: seq<VideoId>, selection: seq<VideoId>)
    requires NoDuplicates(members) && NoDuplicates(selection)
    ensures IsPlacement(members, selection, Place(members, selection))
  {
    var slots := PlaceAt(members, selection);
    hide Place;
    PlacedIsPlacement(members, selection, Place(members, selection), slots);
  }

  lemma PlacedIsPlacement(members: seq<VideoId>, selection: seq<VideoId>, r: seq<VideoId>, slots: seq<nat>)
    requires NoDuplicates(members) && NoDuplicates(selection) && PlacedAt(members, selection, r, slots)
    ensures IsPlacement(members, selection, r)
  {
    var c := Elements(selection);
    forall v | v in members || v in selection ensures v in r {
      if v in selection {
        var k :| 0 <= k < |selection| && selection[k] == v;
        assert r[slots[k]] == v;
      } else {
        var i :| 0 <= i < |members| && members[i] == v;
        assert r[i] == v;
      }
    }
    forall i | 0 <= i < |r| ensures i in slots ==> r[i] in selection
      ensures i !in slots ==> r[i] in members && r[i] !in selection {
      if i in slots {
        var k :| 0 <= k < |slots| && slots[k] == i;
        assert r[i] == selection[k];
      } else {
        assert members[i] !in selection && r[i] == members[i];
      }
    }
    PlacedNoDuplicates(members, selection, r, slots);
    AscendingUnique(Positions(r, c, true), slots);
    assert Filter(r, c, true) == selection;
  }

  lemma PlacedNoDuplicates(members: seq<VideoId>, selection: seq<VideoId>, r: seq<VideoId>, slots: seq<nat>)
    requires NoDuplicates(members) && NoDuplicates(selection) && PlacedAt(members, selection, r, slots)
    ensures NoDuplicates(r)
  {
    forall i, j | 0 <= i < j < |r| ensures r[i] != r[j] {
      if i in slots && j in slots {
        var k :| 0 <= k < |slots| && slots[k] == i;
        var l :| 0 <= l < |slots| && slots[l] == j;
        assert r[slots[k]] == selection[k] && r[slots[l]] == selection[l] && k != l;
      } else if i in slots {
        var k :| 0 <= k < |slots| && slots[k] == i;
        assert r[slots[k]] == selection[k] && members[j] !in selection && r[j] == members[j];
      } else if j in slots {
        var l :| 0 <= l < |slots| && slots[l] == j;
        assert r[slots[l]] == selection[l] && members[i] !in selection && r[i] == members[i];
      } else {
        assert r[i] == members[i] && r[j] == members[j];
      }
    }
  }

  /** Sequences that agree on where the chosen stand and on the order of the chosen agree there. */
  lemma {:induction false} SameMaskSameChosen(a: seq<VideoId>, b: seq<VideoId>, c: set<VideoId>)
    requires |a| == |b| && (forall i :: 0 <= i < |a| ==> (a[i] in c <==> b[i] in c))
    requires Filter(a, c, true) == Filter(b, c, true)
    ensures forall i :: 0 <= i < |a| && a[i] in c ==> a[i] == b[i]
  {
    var p, q := Positions(a, c, true), Positions(b, c, true);
    AscendingUnique(p, q);
    forall i | 0 <= i < |a| && a[i] in c ensures a[i] == b[i] {
      var k :| 0 <= k < |p| && p[k] == i;
      assert Filter(a, c, true)[k] == a[i] && Filter(b, c, true)[k] == b[i];
    }
  }

  /** In a placement an unselected id stands only where it stood. */
  lemma UnselectedStayPut(members: seq<VideoId>, selection: seq<VideoId>, r: seq<VideoId>, i: nat)
    requires IsPlacement(members, selection, r) && i < |r|
    ensures r[i] !in selection <==> i < |members| && members[i] !in selection
    ensures r[i] !in selection ==> r[i] == members[i]
  {
    if r[i] !in selection {
      var j :| 0 <= j < |members| && members[j] == r[i];
      assert r[j] == members[j];
    }
  }

  lemma {:induction false} SameElementsSameLength(a: seq<VideoId>, b: seq<VideoId>)
    requires NoDuplicates(a) && NoDuplicates(b) && forall v :: v in a <==> v in b
    ensures |a| == |b|
  {
    DistinctFit(a, b);
    DistinctFit(b, a);
  }

  /** There is only one placement. */
  lemma PlacementIsUnique(members: seq<VideoId>, selection: seq<VideoId>, r: seq<VideoId>)
    requires NoDuplicates(members) && NoDuplicates(selection)
    ensures IsPlacement(members, selection, r) <==> r == Place(members, selection)
  {
    PlaceIsPlacement(members, selection);
    if IsPlacement(members, selection, r) {
      var p := Place(members, selection);
      SameElementsSameLength(r, p);
      forall i | 0 <= i < |r|
        ensures r[i] in Elements(selection) <==> p[i] in Elements(selection)
        ensures r[i] !in selection ==> r[i] == p[i]
      {
        UnselectedStayPut(members, selection, r, i);
        UnselectedStayPut(members, selection, p, i);
      }
      SameMaskSameChosen(r, p, Elements(selection));
      assert r == p;
    }
  }

  /** Placing the same selection again changes nothing. */
  lemma PlaceIsIdempotent(members: seq<VideoId>, selection: seq<VideoId>)
    requires NoDuplicates(members) && NoDuplicates(selection)
    ensures IsPlacement(members, selection, Place(members, selection))
    ensures Place(Place(members, selection), selection) == Place(members, selection)
  {
    var r := Place(members, selection);
    PlaceIsPlacement(members, selection);
    PlacementIsUnique(r, selection, r);
  }
}
