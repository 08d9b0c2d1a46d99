/**
 Tag reference counts: one number per tag, moved by an accumulator that remembers a count and a single
 direction per tag.  When the numbers stay equal to the number of videos carrying each tag.
 */
module TagCounts {
  type Tag = string
  type VideoId = nat

  /** `update_tags`: how often a tag was tracked, and the direction of the last time. */
  type Changes = map<Tag, (nat, bool)>

  function Get(counts: map<Tag, int>, t: Tag): int {
    if t in counts then counts[t] else 0
  }

  function Carrying(videos: map<VideoId, set<Tag>>, t: Tag): set<VideoId> {
    set v | v in videos && t in videos[v]
  }

  /** Every count is the number of videos carrying the tag, absent meaning zero. */
  ghost predicate Exact(videos: map<VideoId, set<Tag>>, counts: map<Tag, int>) {
    forall t :: Get(counts, t) == |Carrying(videos, t)|
  }

  /** What the accumulator will add to the tag's count. */
  function Net(u: Changes, t: Tag): int {
    if t !in u then 0 else if u[t].1 then u[t].0 else -(u[t].0 as int)
  }

  function Track(u: Changes, tags: set<Tag>, up: bool): Changes {
    map t | t in u.Keys + tags :: if t !in tags then u[t] else if t in u then (u[t].0 + 1, up) else (1, up)
  }

  // ---------------------------------------------------------------- writing the counts

  function Raised(u: Changes): set<Tag> {
    set t | t in u && u[t].1
  }

  /** Increments insert a missing tag, decrements skip it; after a decrement, non-positive counts go. */
  function Bumped(counts: map<Tag, int>, u: Changes): map<Tag, int> {
    map t | t in counts.Keys + Raised(u) :: Get(counts, t) + Net(u, t)
  }

  function Positive(counts: map<Tag, int>): map<Tag, int> {
    map t | t in counts && counts[t] > 0 :: counts[t]
  }

  function Updated(counts: map<Tag, int>, u: Changes): map<Tag, int> {
    if u.Keys == Raised(u) then Bumped(counts, u) else Positive(Bumped(counts, u))
  }

  function Restricted(u: Changes, done: set<Tag>): Changes {
    map t | t in u && t in done :: u[t]
  }

  lemma BumpNone(counts: map<Tag, int>, u: Changes)
    ensures Bumped(counts, Restricted(u, u.Keys - u.Keys)) == counts
  {
  }

  lemma RestrictedAll(u: Changes)
    ensures Restricted(u, u.Keys - {}) == u
  {
  }

  lemma BumpOne(counts: map<Tag, int>, u: Changes, done: set<Tag>, t: Tag)
    requires t in u && t !in done
    ensures var b := Bumped(counts, Restricted(u, done));
      Bumped(counts, Restricted(u, done + {t}))
      == if u[t].1 then b[t := Get(b, t) + u[t].0] else if t in b then b[t := b[t] - u[t].0] else b
  {
  }

  /** While no count goes below zero, every tag's count moves by exactly what was accumulated. */
  lemma UpdatedMovesByNet(counts: map<Tag, int>, u: Changes, t: Tag)
    requires Get(counts, t) >= 0 && Get(counts, t) + Net(u, t) >= 0
    requires t in u ==> u[t].0 > 0
    ensures Get(Updated(counts, u), t) == Get(counts, t) + Net(u, t)
  {
  }

  /**
   Which tags have a number afterwards: those that had one or were counted up; but where anything was counted down,
   only those whose number is still positive.
   */
  lemma UpdatedTags(counts: map<Tag, int>, u: Changes, t: Tag)
    ensures t in Updated(counts, u) <==>
      && (t in counts || (t in u && u[t].1))
      && ((exists d :: d in u && !u[d].1) ==> Get(counts, t) + Net(u, t) > 0)
    ensures t in Updated(counts, u) ==> Updated(counts, u)[t] == Get(counts, t) + Net(u, t)
  {
    if u.Keys == Raised(u) {
      assert forall d :: d in u ==> d in Raised(u);
    } else {
      assert exists d :: d in u && d !in Raised(u);
    }
  }

  /** What tracking does: it counts the times, and the last direction wins. */
  lemma TrackedTag(u: Changes, tags: set<Tag>, up: bool, t: Tag)
    ensures t in Track(u, tags, up) <==> t in u || t in tags
    ensures t in u && t !in tags ==> Track(u, tags, up)[t] == u[t]
    ensures t in tags ==> Track(u, tags, up)[t] == ((if t in u then u[t].0 else 0) + 1, up)
  {
  }

  // ---------------------------------------------------------------- one video at a time

  function Signed(b: bool): int {
    if b then 1 else 0
  }

  lemma RetagCount(videos: map<VideoId, set<Tag>>, v: VideoId, tags: set<Tag>, t: Tag)
    requires v in videos
    ensures |Carrying(videos[v := tags], t)| == |Carrying(videos, t)| + Signed(t in tags) - Signed(t in videos[v])
  {
    var rest := Carrying(videos, t) - {v};
    assert Carrying(videos[v := tags], t) == if t in tags then rest + {v} else rest;
  }

  lemma AddCount(videos: map<VideoId, set<Tag>>, v: VideoId, tags: set<Tag>, t: Tag)
    requires v !in videos
    ensures |Carrying(videos[v := tags], t)| == |Carrying(videos, t)| + Signed(t in tags)
  {
    assert Carrying(videos[v := tags], t) == if t in tags then Carrying(videos, t) + {v} else Carrying(videos, t);
  }

  function Remove(videos: map<VideoId, set<Tag>>, v: VideoId): map<VideoId, set<Tag>> {
    map w | w in videos && w != v :: videos[w]
  }

  lemma RemoveCount(videos: map<VideoId, set<Tag>>, v: VideoId, t: Tag)
    requires v in videos
    ensures |Carrying(Remove(videos, v), t)| == |Carrying(videos, t)| - Signed(t in videos[v])
  {
    assert Carrying(Remove(videos, v), t) == Carrying(videos, t) - {v};
  }

  /** Removing a video without counting is harmless exactly when it carries no tag. */
  lemma UncountedRemovalIff(videos: map<VideoId, set<Tag>>, counts: map<Tag, int>, v: VideoId)
    requires v in videos && Exact(videos, counts)
    ensures Exact(Remove(videos, v), counts) <==> videos[v] == {}
  {
    forall t ensures |Carrying(Remove(videos, v), t)| == |Carrying(videos, t)| - Signed(t in videos[v]) {
      RemoveCount(videos, v, t);
    }
    if t :| t in videos[v] {
      assert Get(counts, t) == |Carrying(videos, t)|;
      assert Get(counts, t) != |Carrying(Remove(videos, v), t)|;
    }
  }

  // ---------------------------------------------------------------- the accumulator

  predicate Distinct(s: seq<VideoId>) {
    forall i, j :: 0 <= i < j < |s| ==> s[i] != s[j]
  }

  /** The accumulator accounts for the change from one catalogue to the other. */
  ghost predicate Accounts(u: Changes, before: map<VideoId, set<Tag>>, after: map<VideoId, set<Tag>>) {
    && (forall t :: Net(u, t) == |Carrying(after, t)| - |Carrying(before, t)|)
    && (forall t :: t in u ==> u[t].0 > 0)
  }

  /** An accumulator that accounts for a change keeps exact counts exact. */
  lemma AccountsKeepsExact(u: Changes, before: map<VideoId, set<Tag>>, after: map<VideoId, set<Tag>>,
                           counts: map<Tag, int>)
    requires Exact(before, counts) && Accounts(u, before, after)
    ensures Exact(after, Updated(counts, u))
  {
    forall t ensures Get(Updated(counts, u), t) == |Carrying(after, t)| {
      assert Net(u, t) == |Carrying(after, t)| - |Carrying(before, t)|;
      assert Get(counts, t) == |Carrying(before, t)|;
      UpdatedMovesByNet(counts, u, t);
    }
  }

  /** Tags are tracked upwards only outside `falling`, and downwards only inside it. */
  predicate OneWay(u: Changes, falling: set<Tag>) {
    forall t :: t in u ==> (u[t].1 <==> t !in falling)
  }

  /** One existing video settled: what it gained and lost is tracked in one pass. */
  lemma RetagAccounts(u: Changes, before: map<VideoId, set<Tag>>, mid: map<VideoId, set<Tag>>,
                      v: VideoId, tags: set<Tag>, falling: set<Tag>)
    requires Accounts(u, before, mid) && OneWay(u, falling) && v in mid
    requires (tags - mid[v]) !! falling && mid[v] - tags <= falling
    ensures var u' := Track(Track(u, tags - mid[v], true), mid[v] - tags, false);
      Accounts(u', before, mid[v := tags]) && OneWay(u', falling)
  {
    var u' := Track(Track(u, tags - mid[v], true), mid[v] - tags, false);
    forall t ensures Net(u', t) == |Carrying(mid[v := tags], t)| - |Carrying(before, t)| {
      RetagCount(mid, v, tags, t);
      assert Net(u, t) == |Carrying(mid, t)| - |Carrying(before, t)|;
    }
  }

  predicate AllDown(u: Changes) {
    forall t :: t in u ==> !u[t].1
  }

  lemma RemoveAccounts(u: Changes, before: map<VideoId, set<Tag>>, mid: map<VideoId, set<Tag>>, v: VideoId)
    requires Accounts(u, before, mid) && AllDown(u) && v in mid
    ensures Accounts(Track(u, mid[v], false), before, Remove(mid, v)) && AllDown(Track(u, mid[v], false))
  {
    forall t ensures Net(Track(u, mid[v], false), t) == |Carrying(Remove(mid, v), t)| - |Carrying(before, t)| {
      RemoveCount(mid, v, t);
      assert Net(u, t) == |Carrying(mid, t)| - |Carrying(before, t)|;
    }
  }

  function RemoveAll(videos: map<VideoId, set<Tag>>, gone: seq<VideoId>): map<VideoId, set<Tag>> {
    map v | v in videos && v !in gone :: videos[v]
  }

  lemma RemoveOneMore(videos: map<VideoId, set<Tag>>, gone: seq<VideoId>, i: nat)
    requires i < |gone| && Distinct(gone) && gone[i] in videos
    ensures gone[i] in RemoveAll(videos, gone[..i]) && RemoveAll(videos, gone[..i])[gone[i]] == videos[gone[i]]
    ensures Remove(RemoveAll(videos, gone[..i]), gone[i]) == RemoveAll(videos, gone[..i + 1])
  {
    assert gone[..i + 1] == gone[..i] + [gone[i]];
  }

  /**
   How far too high a tag ends up when new videos gain it: a tag tracked downwards so far flips its direction,
   and what had been counted down is counted up instead.
   */
  function Flipped(u0: Changes, add: set<Tag>, any: bool, t: Tag): int {
    if any && t in add && t in u0 && !u0[t].1 then 2 * u0[t].0 else 0
  }

  /** `u` continues `u0` over new videos with the added tags. */
  ghost predicate ContinuesWith(u: Changes, u0: Changes, add: set<Tag>, any: bool,
                                before: map<VideoId, set<Tag>>, after: map<VideoId, set<Tag>>) {
    && (forall t :: t in u ==> u[t].0 > 0)
    && (if any then forall t :: t in add ==> t in u && u[t].1 else u == u0)
    && (forall t :: t in u0 && t !in add ==> t in u && u[t] == u0[t])
    && (forall t :: Net(u, t) == |Carrying(after, t)| - |Carrying(before, t)| + Net(u0, t) + Flipped(u0, add, any, t))
  }

  lemma StartContinues(u0: Changes, add: set<Tag>, videos: map<VideoId, set<Tag>>)
    requires forall t :: t in u0 ==> u0[t].0 > 0
    ensures ContinuesWith(u0, u0, add, false, videos, videos)
  {
  }

  function WithNew(videos: map<VideoId, set<Tag>>, newcomers: seq<VideoId>, add: set<Tag>): map<VideoId, set<Tag>> {
    map v | v in videos.Keys + (set w | w in newcomers) :: if v in newcomers then add else videos[v]
  }

  lemma WithOneMore(videos: map<VideoId, set<Tag>>, newcomers: seq<VideoId>, i: nat, add: set<Tag>)
    requires i < |newcomers|
    ensures WithNew(videos, newcomers[..i + 1], add) == WithNew(videos, newcomers[..i], add)[newcomers[i] := add]
  {
    assert newcomers[..i + 1] == newcomers[..i] + [newcomers[i]];
  }

  lemma InsertContinues(u: Changes, u0: Changes, add: set<Tag>, any: bool,
                        before: map<VideoId, set<Tag>>, mid: map<VideoId, set<Tag>>, v: VideoId)
    requires ContinuesWith(u, u0, add, any, before, mid) && v !in mid
    ensures ContinuesWith(Track(u, add, true), u0, add, true, before, mid[v := add])
  {
    forall t ensures Net(Track(u, add, true), t)
        == |Carrying(mid[v := add], t)| - |Carrying(before, t)| + Net(u0, t) + Flipped(u0, add, true, t) {
      AddCount(mid, v, add, t);
      assert Net(u, t) == |Carrying(mid, t)| - |Carrying(before, t)| + Net(u0, t) + Flipped(u0, add, any, t);
    }
  }

  // ---------------------------------------------------------------- the operations

  function Retagged(tags: set<Tag>, add: set<Tag>, remove: set<Tag>): set<Tag> {
    (tags + add) - remove
  }

  function RetagAll(videos: map<VideoId, set<Tag>>, known: seq<VideoId>, add: set<Tag>, remove: set<Tag>)
      : map<VideoId, set<Tag>> {
    map v | v in videos :: if v in known then Retagged(videos[v], add, remove) else videos[v]
  }

  /** A tag named both ways that an existing video of the batch loses while a new one gains it. */
  predicate PulledBothWays(videos: map<VideoId, set<Tag>>, known: seq<VideoId>, newcomers: seq<VideoId>,
                           add: set<Tag>, remove: set<Tag>)
    requires forall v :: v in known ==> v in videos
  {
    newcomers != [] && exists t :: t in add && t in remove && exists v :: v in known && t in videos[v]
  }

  /** Of the removed tags, exactly those some video carried have been tracked. */
  predicate LosesExactly(u: Changes, videos: map<VideoId, set<Tag>>, known: seq<VideoId>, remove: set<Tag>) {
    forall t :: t in remove ==> (t in u <==> exists v :: v in known && v in videos && t in videos[v])
  }

  lemma RetagLoses(u: Changes, videos: map<VideoId, set<Tag>>, done: seq<VideoId>, v: VideoId,
                   add: set<Tag>, remove: set<Tag>)
    requires LosesExactly(u, videos, done, remove) && v in videos
    ensures var tags := Retagged(videos[v], add, remove);
      LosesExactly(Track(Track(u, tags - videos[v], true), videos[v] - tags, false), videos, done + [v], remove)
  {
  }

  datatype TagOp = Increment(name: Tag, amount: nat) | Decrement(name: Tag, amount: nat)

  class TagStore {
    var videos: map<VideoId, set<Tag>>
    var counts: map<Tag, int>

    constructor (v: map<VideoId, set<Tag>>, c: map<Tag, int>)
      ensures videos == v && counts == c
    {
      videos, counts := v, c;
    }

    /** `track_tag_change`. */
    method TrackTagChange(u: Changes, tags: set<Tag>, up: bool) returns (u': Changes)
      ensures u' == Track(u, tags, up)
    {
      u' := u;
      var left := tags;
      while left != {}
        invariant left <= tags
        invariant u' == Track(u, tags - left, up)
        decreases |left|
      {
        var t :| t in left;
        u' := u'[t := if t in u' then (u'[t].0 + 1, up) else (1, up)];
        left := left - {t};
      }
      assert tags - left == tags;
    }

    /** One operation per tag; an increment inserts a missing tag, a decrement does not. */
    method ApplyOperation(op: TagOp)
      modifies this`counts
      ensures op.Increment? ==> counts == old(counts)[op.name := Get(old(counts), op.name) + op.amount]
      ensures op.Decrement? ==>
          counts ==
            if op.name in old(counts) then old(counts)[op.name := old(counts)[op.name] - op.amount] else old(counts)
    {
      if op.Increment? {
        counts := counts[op.name := Get(counts, op.name) + op.amount];
      } else if op.name in counts {
        counts := counts[op.name := counts[op.name] - op.amount];
      }
    }

    /** The bulk write: one operation per tag. */
    method WriteOperations(u: Changes)
      modifies this`counts
      ensures counts == Bumped(old(counts), u)
    {
      BumpNone(counts, u);
      hide Bumped, Restricted;
      var left := u.Keys;
      while left != {}
        invariant left <= u.Keys
        invariant counts == Bumped(old(counts), Restricted(u, u.Keys - left))
        decreases |left|
      {
        var t :| t in left;
        BumpOne(old(counts), u, u.Keys - left, t);
        ApplyOperation(if u[t].1 then Increment(t, u[t].0) else Decrement(t, u[t].0));
        assert u.Keys - (left - {t}) == u.Keys - left + {t};
        left := left - {t};
      }
      RestrictedAll(u);
    }

    /** `update_tag_counts`. */
    method UpdateTagCounts(u: Changes)
      modifies this`counts
      ensures counts == Updated(old(counts), u)
    {
      hide Bumped;
      WriteOperations(u);
      var decremented := set t | t in u && !u[t].1;
      if decremented != {} {
        var t :| t in decremented;
        assert t in u.Keys && t !in Raised(u);
        counts := map t | t in counts && counts[t] > 0 :: counts[t];
      } else {
        assert forall t :: t in u.Keys ==> t in decremented || t in Raised(u);
        assert u.Keys == Raised(u);
      }
    }

    /** A single video's edit: the counts move by the difference between its old and new tags. */
    method EditTags(v: VideoId, tags: set<Tag>)
      requires v in videos && Exact(videos, counts)
      modifies this
      ensures videos == old(videos)[v := tags]
      ensures Exact(videos, counts)
    {
      var u: Changes := map t | t in (tags - videos[v]) + (videos[v] - tags) :: (1, t in tags);
      assert u == Track(Track(map[], tags - videos[v], true), videos[v] - tags, false);
      RetagAccounts(map[], videos, videos, v, tags, videos[v] - tags);
      AccountsKeepsExact(u, videos, videos[v := tags], counts);
      videos := videos[v := tags];
      UpdateTagCounts(u);
    }

    /** Deleting videos takes back exactly the references they held. */
    method DeleteVideos(gone: seq<VideoId>)
      requires Distinct(gone) && (forall v :: v in gone ==> v in videos) && Exact(videos, counts)
      modifies this
      ensures forall v :: v in videos <==> v in old(videos) && v !in gone
      ensures forall v :: v in videos ==> videos[v] == old(videos)[v]
      ensures Exact(videos, counts)
    {
      hide Track, Exact, Distinct;
      var u: Changes := map[];
      assert RemoveAll(videos, gone[..0]) == videos;
      for i := 0 to |gone|
        invariant videos == old(videos) && counts == old(counts)
        invariant Accounts(u, videos, RemoveAll(videos, gone[..i])) && AllDown(u)
      {
        RemoveOneMore(videos, gone, i);
        RemoveAccounts(u, videos, RemoveAll(videos, gone[..i]), gone[i]);
        u := TrackTagChange(u, videos[gone[i]], false);
      }
      assert gone[..|gone|] == gone;
      AccountsKeepsExact(u, videos, RemoveAll(videos, gone), counts);
      videos := map v | v in videos && v !in gone :: videos[v];
      if u != map[] {
        UpdateTagCounts(u);
      } else {
        assert Updated(counts, u) == counts;
      }
    }

    /**
     A migration that overwrites deletes the occupant's record and leaves the counts alone: exact counts stay
     exact if and only if the occupant carries no tag.
     */
    method DisplaceOccupant(v: VideoId)
      requires v in videos && Exact(videos, counts)
      modifies this`videos
      ensures forall w :: w in videos <==> w in old(videos) && w != v
      ensures forall w :: w in videos ==> videos[w] == old(videos)[w]
      ensures Exact(videos, counts) <==> old(videos)[v] == {}
    {
      UncountedRemovalIff(videos, counts, v);
      videos := Remove(videos, v);
    }

    /** The existing videos of a batch: tags replaced, changes tracked. */
    method UpdateExisting(known: seq<VideoId>, add: set<Tag>, remove: set<Tag>) returns (u: Changes)
      requires Distinct(known) && forall v :: v in known ==> v in videos
      modifies this`videos
      ensures videos == RetagAll(old(videos), known, add, remove)
      ensures Accounts(u, old(videos), videos) && OneWay(u, remove)
      ensures LosesExactly(u, old(videos), known, remove)
    {
      u := map[];
      assert RetagAll(videos, known[..0], add, remove) == videos;
      for i := 0 to |known|
        invariant videos == RetagAll(old(videos), known[..i], add, remove)
        invariant Accounts(u, old(videos), videos) && OneWay(u, remove)
        invariant LosesExactly(u, old(videos), known[..i], remove)
      {
        var v := known[i];
        assert v !in known[..i] && v in known;
        assert known[..i + 1] == known[..i] + [v];
        hide Accounts, OneWay, LosesExactly, Track;
        var oldTags := videos[v];
        var newTags := Retagged(oldTags, add, remove);
        RetagAccounts(u, old(videos), videos, v, newTags, remove);
        RetagLoses(u, old(videos), known[..i], v, add, remove);
        u := TrackTagChange(u, newTags - oldTags, true);
        u := TrackTagChange(u, oldTags - newTags, false);
        videos := videos[v := newTags];
      }
      assert known[..|known|] == known;
    }

    /** The new videos of a batch: inserted with the added tags, which are tracked upwards. */
    method InsertNew(newcomers: seq<VideoId>, add: set<Tag>, u0: Changes) returns (u: Changes)
      requires Distinct(newcomers) && forall v :: v in newcomers ==> v !in videos
      requires forall t :: t in u0 ==> u0[t].0 > 0
      modifies this`videos
      ensures videos == WithNew(old(videos), newcomers, add)
      ensures ContinuesWith(u, u0, add, newcomers != [], old(videos), videos)
    {
      hide Track, ContinuesWith;
      assert WithNew(videos, [], add) == videos;
      assert ContinuesWith(u0, u0, add, false, videos, videos) by { StartContinues(u0, add, videos); }
      u := u0;
      for i := 0 to |newcomers|
        invariant videos == WithNew(old(videos), newcomers[..i], add)
        invariant ContinuesWith(u, u0, add, i > 0, old(videos), videos)
      {
        var v := newcomers[i];
        assert v !in newcomers[..i] && v in newcomers;
        InsertContinues(u, u0, add, i > 0, old(videos), videos, v);
        u := TrackTagChange(u, add, true);
        videos := videos[v := add];
        WithOneMore(old(videos), newcomers, i, add);
      }
      assert newcomers[..|newcomers|] == newcomers;
    }

    /**
     A batch update over existing and newly found videos.  The counts stay exact if and only if no tag named
     in both lists is lost by an existing video while new ones gain it.
     */
    method BatchUpdate(known: seq<VideoId>, newcomers: seq<VideoId>, add: set<Tag>, remove: set<Tag>)
      requires Exact(videos, counts) && Distinct(known) && Distinct(newcomers)
      requires forall v :: v in known ==> v in videos
      requires forall v :: v in newcomers ==> v !in videos
      modifies this
      ensures videos.Keys == old(videos).Keys + (set v | v in newcomers)
      ensures forall v, t :: v in known ==> (t in videos[v] <==> (t in old(videos)[v] || t in add) && t !in remove)
      ensures forall v :: v in newcomers ==> videos[v] == add
      ensures forall v :: v in old(videos) && v !in known ==> videos[v] == old(videos)[v]
      ensures Exact(videos, counts) <==> !PulledBothWays(old(videos), known, newcomers, add, remove)
    {
      ghost var before := videos;
      var u0 := UpdateExisting(known, add, remove);
      ghost var mid := videos;
      var u := InsertNew(newcomers, add, u0);
      UpdateTagCounts(u);
      BatchExactIff(before, mid, videos, old(counts), known, newcomers, add, remove, u0, u);
    }
  }

  lemma BatchExactIff(before: map<VideoId, set<Tag>>, mid: map<VideoId, set<Tag>>, after: map<VideoId, set<Tag>>,
                       counts: map<Tag, int>, known: seq<VideoId>, newcomers: seq<VideoId>,
                       add: set<Tag>, remove: set<Tag>,
                      u0: Changes, u: Changes)
    requires Exact(before, counts) && Accounts(u0, before, mid) && OneWay(u0, remove)
    requires forall v :: v in known ==> v in before
    requires LosesExactly(u0, before, known, remove)
    requires ContinuesWith(u, u0, add, newcomers != [], mid, after)
    ensures Exact(after, Updated(counts, u)) <==> !PulledBothWays(before, known, newcomers, add, remove)
  {
    forall t ensures Get(Updated(counts, u), t) == |Carrying(after, t)|
      + Flipped(u0, add, newcomers != [], t)
    {
      assert Net(u0, t) == |Carrying(mid, t)| - |Carrying(before, t)|;
      assert Get(counts, t) == |Carrying(before, t)|;
      UpdatedMovesByNet(counts, u, t);
    }
    if PulledBothWays(before, known, newcomers, add, remove) {
      var t :| t in add && t in remove && exists v :: v in known && t in before[v];
      assert t in u0 && !u0[t].1 && u0[t].0 > 0 && Flipped(u0, add, newcomers != [], t) > 0;
      assert Get(Updated(counts, u), t) != |Carrying(after, t)|;
    }
  }
}
