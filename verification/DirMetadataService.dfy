/**
 The recorded size and modification time of every directory: read through a cache, recomputed one level at
 a time, and kept equal to what a full walk would say.
 */
module DirMetadataService {
  import opened Wrappers
  import opened DirectoryTree

  type Records = map<Path, Meta>

  function Recorded(stored: Records, p: Path): Option<Meta> {
    if p in stored then Some(stored[p]) else None
  }

  /** One level only: this directory's videos, and for its sub-directories what is recorded. */
  function Direct(stored: Records, p: Path, es: seq<Entry>): Meta {
    if es == [] then EMPTY
    else
      var last := es[|es| - 1];
      Plus(Direct(stored, p, es[..|es| - 1]),
           if last.DirEntry? then Recorded(stored, p + [last.name]).GetOr(EMPTY) else EntryAggregate(last))
  }

  /** What a one-level calculation writes back about the sub-directories: an unrecorded one as empty. */
  function Listed(stored: Records, p: Path, es: seq<Entry>): Records {
    if es == [] then map[]
    else
      var last := es[|es| - 1];
      var front := Listed(stored, p, es[..|es| - 1]);
      if last.DirEntry? then front[p + [last.name] := Recorded(stored, p + [last.name]).GetOr(EMPTY)] else front
  }

  predicate ChildrenRecorded(stored: Records, p: Path, es: seq<Entry>) {
    forall i :: 0 <= i < |es| && es[i].DirEntry? ==> p + [es[i].name] in stored
  }

  /** Every sub-directory that is recorded is recorded right. */
  predicate RecordedRight(stored: Records, p: Path, es: seq<Entry>) {
    forall i :: 0 <= i < |es| && es[i].DirEntry? && p + [es[i].name] in stored ==>
      stored[p + [es[i].name]] == Aggregate(es[i].entries)
  }

  /** Every sub-directory that is not recorded holds no video bytes. */
  predicate MissingAreEmpty(stored: Records, p: Path, es: seq<Entry>) {
    forall i :: 0 <= i < |es| && es[i].DirEntry? && p + [es[i].name] !in stored ==> Aggregate(es[i].entries).size == 0
  }

  /** With every sub-directory recorded right, one level gives what the full walk gives, and writes back nothing new. */
  lemma {:induction false} DirectIsAggregate(stored: Records, p: Path, es: seq<Entry>)
    requires ChildrenRecorded(stored, p, es) && RecordedRight(stored, p, es)
    ensures Direct(stored, p, es) == Aggregate(es)
    ensures stored + Listed(stored, p, es) == stored
  {
    if es != [] {
      assert forall i :: 0 <= i < |es| - 1 ==> es[..|es| - 1][i] == es[i];
      DirectIsAggregate(stored, p, es[..|es| - 1]);
    }
  }

  /** One level never says too much, and says the right size exactly when nothing unrecorded holds any. */
  lemma {:induction false} DirectSizeIff(stored: Records, p: Path, es: seq<Entry>)
    requires RecordedRight(stored, p, es)
    ensures Direct(stored, p, es).size <= Aggregate(es).size
    ensures Direct(stored, p, es).size == Aggregate(es).size <==> MissingAreEmpty(stored, p, es)
  {
    if es != [] {
      var front := es[..|es| - 1];
      assert forall i :: 0 <= i < |es| - 1 ==> front[i] == es[i];
      DirectSizeIff(stored, p, front);
      assert MissingAreEmpty(stored, p, es) <==>
        MissingAreEmpty(stored, p, front)
        && (es[|front|].DirEntry? && p + [es[|front|].name] !in stored ==> Aggregate(es[|front|].entries).size == 0);
    }
  }

  /** Every sub-directory that is not recorded holds no video later than `m`. */
  predicate MissingNoLater(stored: Records, p: Path, es: seq<Entry>, m: nat) {
    forall i :: 0 <= i < |es| && es[i].DirEntry? && p + [es[i].name] !in stored ==> Aggregate(es[i].entries).mtime <= m
  }

  lemma {:induction false} TimeBound(stored: Records, p: Path, es: seq<Entry>, m: nat)
    requires RecordedRight(stored, p, es)
    ensures Aggregate(es).mtime <= m <==> Direct(stored, p, es).mtime <= m && MissingNoLater(stored, p, es, m)
  {
    if es != [] {
      var front := es[..|es| - 1];
      assert forall i :: 0 <= i < |es| - 1 ==> front[i] == es[i];
      TimeBound(stored, p, front, m);
      assert MissingNoLater(stored, p, es, m) <==>
        MissingNoLater(stored, p, front, m)
        && (es[|front|].DirEntry? && p + [es[|front|].name] !in stored ==> Aggregate(es[|front|].entries).mtime <= m);
    }
  }

  /** The same of the time: never too late, and right exactly when nothing unrecorded is later than what was seen. */
  lemma DirectTimeIff(stored: Records, p: Path, es: seq<Entry>)
    requires RecordedRight(stored, p, es)
    ensures var d := Direct(stored, p, es).mtime;
      && d <= Aggregate(es).mtime
      && (d == Aggregate(es).mtime <==> MissingNoLater(stored, p, es, d))
  {
    TimeBound(stored, p, es, Direct(stored, p, es).mtime);
    TimeBound(stored, p, es, Aggregate(es).mtime);
  }

  /** What is written back: each sub-directory's record, and size and time zero for those without one. */
  lemma {:induction false} ListedIs(stored: Records, p: Path, es: seq<Entry>, q: Path)
    ensures q in Listed(stored, p, es) <==> exists i :: 0 <= i < |es| && es[i].DirEntry? && q == p + [es[i].name]
    ensures q in Listed(stored, p, es) ==> Listed(stored, p, es)[q] == if q in stored then stored[q] else Meta(0, 0)
  {
    if es != [] {
      ListedIs(stored, p, es[..|es| - 1], q);
      assert forall i :: 0 <= i < |es| - 1 ==> es[..|es| - 1][i] == es[i];
    }
  }

  // ---------------------------------------------------------------- agreement with the storage

  /** The directory `q` is recorded with what a full walk of it gives. */
  predicate Agrees(stored: Records, f: Forest, q: Path) {
    DirAt(f, q).Some? ==> q in stored && stored[q] == Aggregate(DirAt(f, q).value)
  }

  ghost predicate AllAgree(stored: Records, f: Forest) {
    forall q :: Agrees(stored, f, q)
  }

  /** Files changed directly inside `p`: only `p` and its ancestors can be recorded wrong. */
  lemma OnlyAncestorsGoStale(stored: Records, f: Forest, p: Path, files: seq<Entry>, q: Path)
    requires WellRooted(f) && DirAt(f, p).Some? && OnlyFiles(files) && Agrees(stored, f, q) && !(q <= p)
    ensures Agrees(stored, FilesBecome(f, p, files), q)
  {
    FilesBecomeLocal(f, p, files, q);
  }

  /** With every longer path recorded right, one level at `p` is right. */
  lemma OneLevelSettles(stored: Records, f: Forest, p: Path)
    requires WellRooted(f) && DirAt(f, p).Some?
    requires forall q :: |q| == |p| + 1 && p <= q ==> Agrees(stored, f, q)
    ensures Direct(stored, p, DirAt(f, p).value) == Aggregate(DirAt(f, p).value)
    ensures stored + Listed(stored, p, DirAt(f, p).value) == stored
  {
    var es := DirAt(f, p).value;
    forall i | 0 <= i < |es| && es[i].DirEntry?
      ensures p + [es[i].name] in stored && stored[p + [es[i].name]] == Aggregate(es[i].entries)
    {
      ChildAt(f, p, i);
      assert Agrees(stored, f, p + [es[i].name]);
    }
    DirectIsAggregate(stored, p, es);
  }

  /** Recomputing one directory rights it and leaves every other alone. */
  lemma OnlyOneRewritten(before: Records, after: Records, f: Forest, p: Path)
    requires DirAt(f, p).Some? && after == before[p := Aggregate(DirAt(f, p).value)]
    ensures Agrees(after, f, p)
    ensures forall q :: q != p && Agrees(before, f, q) ==> Agrees(after, f, q)
    ensures forall q :: q != p ==> Recorded(after, q) == Recorded(before, q)
  {
  }

  /** What the walk up from `current` has settled, once `current` is recomputed. */
  lemma StepUp(before: Records, after: Records, f: Forest, current: Path)
    requires DirAt(f, current).Some? && after == before[current := Aggregate(DirAt(f, current).value)]
    requires forall q :: !(q <= current) ==> Agrees(before, f, q)
    ensures forall q :: !(q <= Parent(current)) ==> Agrees(after, f, q)
    ensures |current| == 2 ==> AllAgree(after, f)
  {
    hide Aggregate;
    OnlyOneRewritten(before, after, f, current);
    forall q | !(q <= Parent(current)) || |current| == 2 ensures Agrees(after, f, q) {
      if q <= current && q != current {
        assert q == Parent(current)[..|q|];
      }
    }
  }

  // ---------------------------------------------------------------- ancestor chains

  function Parent(p: Path): Path
    requires p != []
  {
    p[..|p| - 1]
  }

  /** Where the walk up from a path ends. */
  predicate Top(roots: set<Path>, p: Path) {
    p in roots || |p| <= 1
  }

  /** A path and its ancestors, up to the first logical root. */
  function Chain(roots: set<Path>, p: Path): set<Path>
    decreases |p|
  {
    if Top(roots, p) then {p} else {p} + Chain(roots, Parent(p))
  }

  function Chains(roots: set<Path>, ps: seq<Path>): set<Path> {
    if ps == [] then {} else Chains(roots, ps[..|ps| - 1]) + Chain(roots, ps[|ps| - 1])
  }

  /** Closed under taking parents, except perhaps for the paths whose parent is `pending`. */
  ghost predicate ClosedBut(roots: set<Path>, s: set<Path>, pending: Option<Path>) {
    forall q :: q in s && !Top(roots, q) ==> Parent(q) in s || pending == Some(Parent(q))
  }

  /** Why the walk may stop early: a closed set that holds a path holds its whole chain. */
  lemma {:induction false} ClosedHoldsChain(roots: set<Path>, s: set<Path>, p: Path)
    requires ClosedBut(roots, s, None) && p in s
    ensures Chain(roots, p) <= s
    decreases |p|
  {
    if !Top(roots, p) {
      ClosedHoldsChain(roots, s, Parent(p));
    }
  }

  /** Every directory on the chain of a directory is a directory. */
  lemma {:induction false} ChainOfDirectories(f: Forest, p: Path, q: Path)
    requires WellRooted(f) && DirAt(f, p).Some? && q in Chain(f.Keys, p)
    ensures DirAt(f, q).Some?
    decreases |p|
  {
    if q != p {
      ParentAt(f, p);
      ChainOfDirectories(f, Parent(p), q);
    }
  }

  /** The directories at or above a directory are its chain. */
  lemma {:induction false} ChainHoldsPrefixes(f: Forest, p: Path, q: Path)
    requires WellRooted(f) && DirAt(f, p).Some? && DirAt(f, q).Some? && q <= p
    ensures q in Chain(f.Keys, p)
    decreases |p|
  {
    if q != p {
      assert q <= Parent(p);
      assert p !in f by { assert |q| >= 2; }
      ParentAt(f, p);
      ChainHoldsPrefixes(f, Parent(p), q);
    }
  }

  lemma {:induction false} ChainsOfDirectories(f: Forest, ps: seq<Path>)
    requires WellRooted(f) && forall p :: p in ps ==> DirAt(f, p).Some?
    ensures forall q :: q in Chains(f.Keys, ps) ==> DirAt(f, q).Some?
  {
    if ps != [] {
      ChainsOfDirectories(f, ps[..|ps| - 1]);
      forall q | q in Chain(f.Keys, ps[|ps| - 1]) ensures DirAt(f, q).Some? {
        ChainOfDirectories(f, ps[|ps| - 1], q);
      }
    }
  }

  datatype Change = Change(dir: Path, files: seq<Entry>)

  function Dirs(changes: seq<Change>): seq<Path> {
    seq(|changes|, i requires 0 <= i < |changes| => changes[i].dir)
  }

  predicate Changeable(f: Forest, changes: seq<Change>) {
    forall i :: 0 <= i < |changes| ==> DirAt(f, changes[i].dir).Some? && OnlyFiles(changes[i].files)
  }

  /** The storage after files were added, removed or rewritten directly inside any number of directories. */
  function AllBecome(f: Forest, changes: seq<Change>): (g: Forest)
    requires WellRooted(f) && Changeable(f, changes)
    ensures WellRooted(g) && g.Keys == f.Keys
    ensures forall p :: DirAt(g, p).Some? <==> DirAt(f, p).Some?
    decreases |changes|
  {
    if changes == [] then f
    else
      var front := AllBecome(f, changes[..|changes| - 1]);
      var last := changes[|changes| - 1];
      FilesBecomeWellRooted(front, last.dir, last.files);
      assert forall p :: DirAt(FilesBecome(front, last.dir, last.files), p).Some? <==> DirAt(front, p).Some? by {
        forall p ensures DirAt(FilesBecome(front, last.dir, last.files), p).Some? <==> DirAt(front, p).Some? {
          FilesBecomeLocal(front, last.dir, last.files, p);
        }
      }
      FilesBecome(front, last.dir, last.files)
  }

  lemma ChangeStaysInChain(stored: Records, f: Forest, change: Change, q: Path)
    requires WellRooted(f) && DirAt(f, change.dir).Some? && OnlyFiles(change.files)
    requires Agrees(stored, f, q) && q !in Chain(f.Keys, change.dir)
    ensures Agrees(stored, FilesBecome(f, change.dir, change.files), q)
  {
    hide DirAt, FilesBecome, Aggregate, WellRooted;
    FilesBecomeLocal(f, change.dir, change.files, q);
    if DirAt(f, q).Some? && q <= change.dir {
      ChainHoldsPrefixes(f, change.dir, q);
    }
  }

  lemma LastChange(f: Forest, changes: seq<Change>)
    requires WellRooted(f) && Changeable(f, changes) && changes != []
    ensures var front, last := changes[..|changes| - 1], changes[|changes| - 1];
      && Changeable(f, front) && DirAt(AllBecome(f, front), last.dir).Some?
      && AllBecome(f, changes) == FilesBecome(AllBecome(f, front), last.dir, last.files)
      && Chains(f.Keys, Dirs(changes)) == Chains(f.Keys, Dirs(front)) + Chain(f.Keys, last.dir)
  {
    hide FilesBecome, DirAt, WellRooted, Chain;
    assert Dirs(changes)[..|changes| - 1] == Dirs(changes[..|changes| - 1]);
  }

  /** Whatever the changes were, what they made stale lies in the chains the two updates recompute. */
  lemma {:induction false} ChangesStayInChains(stored: Records, f: Forest, changes: seq<Change>, q: Path)
    requires WellRooted(f) && Changeable(f, changes) && Agrees(stored, f, q)
    requires q !in Chains(f.Keys, Dirs(changes))
    ensures Agrees(stored, AllBecome(f, changes), q)
    decreases |changes|
  {
    if changes != [] {
      LastChange(f, changes);
      hide Agrees, AllBecome, FilesBecome, DirAt, WellRooted, Chain, Chains, Dirs;
      var front := changes[..|changes| - 1];
      ChangesStayInChains(stored, f, front, q);
      ChangeStaysInChain(stored, AllBecome(f, front), changes[|changes| - 1], q);
    }
  }

  lemma {:induction false} LongestExists(s: set<Path>) returns (p: Path)
    requires s != {}
    ensures p in s && forall q :: q in s ==> |q| <= |p|
  {
    p :| p in s;
    if s != {p} {
      var r := LongestExists(s - {p});
      assert forall q :: q in s ==> q == p || q in s - {p};
      if |r| > |p| {
        p := r;
      }
    }
  }

  // ---------------------------------------------------------------- the service

  /** A set of paths nobody knows: which cache entries expire. */
  method Expired() returns (gone: set<Path>) {
    gone := *;
  }

  class DirMetadata {
    var forest: Forest
    var stored: Records
    var cache: Records

    constructor (forest: Forest)
      ensures this.forest == forest && stored == map[] && Coherent()
    {
      this.forest := forest;
      stored, cache := map[], map[];
    }

    /** The cache holds nothing the database does not say. */
    ghost predicate Coherent()
      reads this
    {
      forall p :: p in cache ==> p in stored && cache[p] == stored[p]
    }

    /** Entries leave the cache whenever they please. */
    method Expire()
      requires Coherent()
      modifies `cache
      ensures Coherent()
    {
      var gone := Expired();
      cache := map p | p in cache && p !in gone :: cache[p];
    }

    /** A read through the cache is a read of the database, whatever has expired. */
    method GetMetadata(p: Path) returns (m: Option<Meta>)
      requires Coherent()
      modifies `cache
      ensures Coherent() && m == Recorded(stored, p)
    {
      Expire();
      if p in cache {
        return Some(cache[p]);
      }
      if p in stored {
        m := Some(stored[p]);
        cache := cache[p := stored[p]];
        return;
      }
      m := None;
    }

    method SetMetadata(p: Path, m: Meta)
      requires Coherent()
      modifies `stored, `cache
      ensures Coherent() && stored == old(stored)[p := m]
    {
      stored := stored[p := m];
      cache := cache[p := m];
    }

    method BulkSetMetadata(entries: Records)
      requires Coherent()
      modifies `stored, `cache
      ensures Coherent() && stored == old(stored) + entries
    {
      if |entries| == 0 {
        return;
      }
      stored := stored + entries;
      cache := cache + entries;
    }

    /** One level: the sub-directories are read through the cache. */
    method CalculateDirect(p: Path, entries: seq<Entry>, collected: Records) returns (m: Meta, collected': Records)
      requires Coherent()
      modifies `cache
      ensures Coherent()
      ensures m == Direct(stored, p, entries) && collected' == collected + Listed(stored, p, entries)
    {
      m, collected' := EMPTY, collected;
      for i := 0 to |entries|
        invariant Coherent()
        invariant m == Direct(stored, p, entries[..i]) && collected' == collected + Listed(stored, p, entries[..i])
      {
        assert entries[..i + 1][..i] == entries[..i];
        var entry := entries[i];
        if entry.DirEntry? {
          var sub := p + [entry.name];
          var read := GetMetadata(sub);
          var dir := read.GetOr(EMPTY);
          collected' := collected'[sub := dir];
          m := Meta(m.size + dir.size, Max(m.mtime, dir.mtime));
        } else if entry.isVideo {
          m := Meta(m.size + entry.size, Max(m.mtime, entry.mtime));
        }
      }
      assert entries[..|entries|] == entries;
    }

    /** The full walk: every directory below is collected with its own aggregate. */
    method CalculateRecursively(p: Path, entries: seq<Entry>, collected: Records) returns (m: Meta, collected': Records)
      requires WellNamed(entries)
      ensures m == Aggregate(entries)
      ensures WalkCollects(p, entries, collected, collected')
      decreases entries
    {
      m, collected' := EMPTY, collected;
      for i := 0 to |entries|
        invariant m == Aggregate(entries[..i]) && WalkCollects(p, entries[..i], collected, collected')
      {
        assert entries[..i + 1][..i] == entries[..i];
        var entry := entries[i];
        ghost var before := collected';
        if entry.DirEntry? {
          var sub := p + [entry.name];
          var dir, inner := CalculateRecursively(sub, entry.entries, collected');
          collected' := inner[sub := dir];
          m := Meta(m.size + dir.size, Max(m.mtime, dir.mtime));
          PrefixWellNamed(entries, i + 1);
          WalkOneMore(p, entries[..i + 1], collected, before, inner, collected');
        } else {
          if entry.isVideo {
            m := Meta(m.size + entry.size, Max(m.mtime, entry.mtime));
          }
          WalkSkipsFile(p, entries[..i + 1], collected, collected');
        }
      }
      assert entries[..|entries|] == entries;
    }

    /** `skipCache`, `recursiveCalculation`: the three ways to ask for a directory's numbers. */
    method CalculateDirectoryMetadata(p: Path, skipCache: bool, recursive: bool) returns (m: Meta)
      requires Coherent() && WellRooted(forest) && DirAt(forest, p).Some?
      modifies `stored, `cache
      ensures Coherent()
      ensures !skipCache && p in old(stored) ==> m == old(stored)[p] && stored == old(stored)
      ensures (skipCache || p !in old(stored)) && !recursive ==>
        var es := DirAt(forest, p).value;
        m == Direct(old(stored), p, es) && stored == (old(stored) + Listed(old(stored), p, es))[p := m]
      ensures (skipCache || p !in old(stored)) && recursive ==>
        && m == Aggregate(DirAt(forest, p).value)
        && (forall q :: p <= q ==> Agrees(stored, forest, q))
        && (forall q :: !(p <= q && DirAt(forest, q).Some?) ==> Recorded(stored, q) == Recorded(old(stored), q))
    {
      hide Direct, Listed, Aggregate, At, WellNamed, WalkCollects, Agrees;
      if !skipCache {
        var cached := GetMetadata(p);
        if cached.Some? {
          return cached.value;
        }
      }
      var entries := DirAt(forest, p).value;
      var collected: Records;
      if recursive {
        DirectoriesWellNamed(forest, p);
        m, collected := CalculateRecursively(p, entries, map[]);
        BulkSetMetadata(collected[p := m]);
        WalkAgrees(forest, p, collected, old(stored), stored);
      } else {
        m, collected := CalculateDirect(p, entries, map[]);
        assert map[] + Listed(stored, p, entries) == Listed(stored, p, entries);
        BulkSetMetadata(collected[p := m]);
      }
    }

    /**
     Files changed inside `p`: recomputing `p` and then each ancestor from its recorded children restores
     agreement everywhere, and rewrites nothing off that path.
     */
    method UpdateForward(p: Path)
      requires Coherent() && WellRooted(forest) && DirAt(forest, p).Some?
      requires forall q :: !(q <= p) ==> Agrees(stored, forest, q)
      modifies `stored, `cache
      ensures Coherent() && AllAgree(stored, forest)
      ensures forall q :: !(q <= p) ==> Recorded(stored, q) == Recorded(old(stored), q)
    {
      hide Agrees, Recorded, Direct, Listed, Aggregate, At;
      var current := p;
      while true
        invariant Coherent() && current <= p && DirAt(forest, current).Some?
        invariant forall q :: !(q <= current) ==> Agrees(stored, forest, q)
        invariant forall q :: !(q <= p) ==> Recorded(stored, q) == Recorded(old(stored), q)
        decreases |current|
      {
        OneLevelSettles(stored, forest, current);
        ghost var before := stored;
        var m := CalculateDirectoryMetadata(current, true, false);
        SetMetadata(current, m);
        assert stored == before[current := m];
        OnlyOneRewritten(before, stored, forest, current);
        StepUp(before, stored, forest, current);
        if current in forest.Keys || |current| <= 1 {
          break;
        }
        ParentAt(forest, current);
        current := Parent(current);
      }
    }

    /** All paths the batched update must recompute: the ancestor closure, up to the logical roots. */
    method CollectChains(dirs: seq<Path>) returns (all: set<Path>)
      ensures all == Chains(forest.Keys, dirs)
    {
      all := {};
      for i := 0 to |dirs|
        invariant all == Chains(forest.Keys, dirs[..i]) && ClosedBut(forest.Keys, all, None)
      {
        assert dirs[..i + 1][..i] == dirs[..i];
        var current := dirs[i];
        ghost var before := all;
        while current !in all
          invariant before <= all <= before + Chain(forest.Keys, dirs[i])
          invariant Chain(forest.Keys, current) <= Chain(forest.Keys, dirs[i]) <= all + Chain(forest.Keys, current)
          invariant ClosedBut(forest.Keys, all, Some(current))
          decreases |current|
        {
          all := all + {current};
          if current in forest.Keys || |current| <= 1 {
            break;
          }
          current := Parent(current);
        }
        assert ClosedBut(forest.Keys, all, None);
        ClosedHoldsChain(forest.Keys, all, current);
      }
      assert dirs[..|dirs|] == dirs;
    }

    /** One directory of the batch: it is right afterwards, when those below it are, and no other is touched. */
    method Recompute(p: Path)
      requires Coherent() && WellRooted(forest) && DirAt(forest, p).Some?
      requires forall q :: |q| == |p| + 1 && p <= q ==> Agrees(stored, forest, q)
      modifies `stored, `cache
      ensures Coherent() && Agrees(stored, forest, p)
      ensures forall q :: q != p && Agrees(old(stored), forest, q) ==> Agrees(stored, forest, q)
      ensures forall q :: q != p ==> Recorded(stored, q) == Recorded(old(stored), q)
    {
      hide Agrees, Recorded, Direct, Listed, Aggregate, DirAt;
      OneLevelSettles(stored, forest, p);
      ghost var before := stored;
      var m := CalculateDirectoryMetadata(p, true, false);
      assert stored == before[p := m];
      OnlyOneRewritten(before, stored, forest, p);
    }

    /** Deepest first, each directory once: agreement is restored everywhere, for any set of changed directories. */
    method BatchUpdateForward(dirs: seq<Path>)
      requires Coherent() && WellRooted(forest) && forall p :: p in dirs ==> DirAt(forest, p).Some?
      requires forall q :: q !in Chains(forest.Keys, dirs) ==> Agrees(stored, forest, q)
      modifies `stored, `cache
      ensures Coherent() && AllAgree(stored, forest)
      ensures forall q :: q !in Chains(forest.Keys, dirs) ==> Recorded(stored, q) == Recorded(old(stored), q)
    {
      if |dirs| == 0 {
        return;
      }
      hide Agrees, Recorded, Direct, Listed, Aggregate, DirAt, Chains;
      var todo := CollectChains(dirs);
      ChainsOfDirectories(forest, dirs);
      while todo != {}
        invariant Coherent() && todo <= Chains(forest.Keys, dirs)
        invariant forall q :: q !in todo ==> Agrees(stored, forest, q)
        invariant forall q :: q !in Chains(forest.Keys, dirs) ==> Recorded(stored, q) == Recorded(old(stored), q)
        decreases |todo|
      {
        ghost var longest := LongestExists(todo);
        var p :| p in todo && forall q :: q in todo ==> |q| <= |p|;
        Recompute(p);
        todo := todo - {p};
      }
    }

    /**
     Where every directory is recorded right, files are added, removed or rewritten in one of them and it is
     updated forward: every directory is recorded right again, with what a full walk now gives.
     */
    method ChangeFiles(dir: Path, files: seq<Entry>)
      requires Coherent() && WellRooted(forest) && AllAgree(stored, forest)
      requires DirAt(forest, dir).Some? && OnlyFiles(files)
      modifies this
      ensures forest == FilesBecome(old(forest), dir, files) && WellRooted(forest)
      ensures Coherent() && AllAgree(stored, forest)
      ensures forall q :: !(q <= dir) ==> Recorded(stored, q) == Recorded(old(stored), q)
    {
      hide Agrees, FilesBecome, DirAt, WellRooted;
      forall q | !(q <= dir) ensures Agrees(stored, FilesBecome(forest, dir, files), q) {
        OnlyAncestorsGoStale(stored, forest, dir, files, q);
      }
      FilesBecomeWellRooted(forest, dir, files);
      FilesBecomeLocal(forest, dir, files, dir);
      forest := FilesBecome(forest, dir, files);
      UpdateForward(dir);
    }

    /** The same for changes in any number of directories and one batched update. */
    method ChangeManyFiles(changes: seq<Change>)
      requires Coherent() && WellRooted(forest) && AllAgree(stored, forest) && Changeable(forest, changes)
      modifies this
      ensures forest == AllBecome(old(forest), changes)
      ensures Coherent() && AllAgree(stored, forest)
    {
      hide Agrees, AllBecome, DirAt, WellRooted, Chains;
      ghost var roots := forest.Keys;
      forall q | q !in Chains(roots, Dirs(changes)) ensures Agrees(stored, AllBecome(forest, changes), q) {
        ChangesStayInChains(stored, forest, changes, q);
      }
      forall p | p in Dirs(changes) ensures DirAt(forest, p).Some? {
        var i :| 0 <= i < |changes| && Dirs(changes)[i] == p;
        assert changes[i].dir == p;
      }
      forest := AllBecome(forest, changes);
      BatchUpdateForward(Dirs(changes));
    }
  }

  // ---------------------------------------------------------------- the full walk

  /** Below `p` exactly the directories are collected, each with its aggregate; the rest is as before. */
  ghost predicate WalkCollects(p: Path, es: seq<Entry>, before: Records, after: Records) {
    forall q :: Recorded(after, q) ==
      if p < q && At(es, q[|p|..]).Some? then Some(Aggregate(At(es, q[|p|..]).value)) else Recorded(before, q)
  }

  lemma PrefixWellNamed(es: seq<Entry>, n: nat)
    requires WellNamed(es) && n <= |es|
    ensures WellNamed(es[..n])
  {
  }

  lemma WalkSkipsFile(p: Path, es: seq<Entry>, before: Records, after: Records)
    requires es != [] && es[|es| - 1].FileEntry? && WalkCollects(p, es[..|es| - 1], before, after)
    ensures WalkCollects(p, es, before, after)
  {
  }

  lemma {:induction false} UnknownName(es: seq<Entry>, r: Path)
    requires r != [] && forall i :: 0 <= i < |es| && es[i].DirEntry? ==> es[i].name != r[0]
    ensures At(es, r) == None
    decreases |es|
  {
    if es != [] {
      UnknownName(es[..|es| - 1], r);
    }
  }

  lemma CollectedAt(p: Path, es: seq<Entry>, before: Records, after: Records, q: Path)
    requires WalkCollects(p, es, before, after)
    ensures Recorded(after, q) ==
      if p < q && At(es, q[|p|..]).Some? then Some(Aggregate(At(es, q[|p|..]).value)) else Recorded(before, q)
  {
  }

  /** Looking into the sub-directory just walked: it is the last entry, and the only one of its name. */
  lemma LastOfItsName(es: seq<Entry>, r: Path)
    requires es != [] && es[|es| - 1].DirEntry? && WellNamed(es) && r != [] && r[0] == es[|es| - 1].name
    ensures At(es, r) == At(es[|es| - 1].entries, r[1..]) && At(es[..|es| - 1], r).None?
    ensures r[1..] == [] ==> At(es, r) == Some(es[|es| - 1].entries)
  {
    UnknownName(es[..|es| - 1], r);
  }

  /** A path at or below a sub-directory, and what it is called there. */
  lemma Below(p: Path, name: Name, q: Path)
    requires p + [name] <= q
    ensures p < q && q[|p|..] != [] && q[|p|..][0] == name && q[|p|..][1..] == q[|p + [name]|..]
    ensures q[|p|..][1..] == [] <==> q == p + [name]
    ensures q != p + [name] ==> p + [name] < q
  {
  }

  lemma WalkInside(p: Path, es: seq<Entry>, before: Records, middle: Records, inner: Records, after: Records, q: Path)
    requires es != [] && es[|es| - 1].DirEntry? && WellNamed(es)
    requires WalkCollects(p, es[..|es| - 1], before, middle)
    requires WalkCollects(p + [es[|es| - 1].name], es[|es| - 1].entries, middle, inner)
    requires after == inner[p + [es[|es| - 1].name] := Aggregate(es[|es| - 1].entries)]
    requires p + [es[|es| - 1].name] <= q
    ensures Recorded(after, q) ==
      if At(es, q[|p|..]).Some? then Some(Aggregate(At(es, q[|p|..]).value)) else Recorded(before, q)
  {
    hide Aggregate, WellNamed, At, WalkCollects;
    var last := es[|es| - 1];
    Below(p, last.name, q);
    LastOfItsName(es, q[|p|..]);
    CollectedAt(p, es[..|es| - 1], before, middle, q);
    CollectedAt(p + [last.name], last.entries, middle, inner, q);
  }

  lemma WalkOneMore(p: Path, es: seq<Entry>, before: Records, middle: Records, inner: Records, after: Records)
    requires es != [] && es[|es| - 1].DirEntry? && WellNamed(es)
    requires WalkCollects(p, es[..|es| - 1], before, middle)
    requires WalkCollects(p + [es[|es| - 1].name], es[|es| - 1].entries, middle, inner)
    requires after == inner[p + [es[|es| - 1].name] := Aggregate(es[|es| - 1].entries)]
    ensures WalkCollects(p, es, before, after)
  {
    var last := es[|es| - 1];
    var sub := p + [last.name];
    forall q ensures Recorded(after, q) ==
      if p < q && At(es, q[|p|..]).Some? then Some(Aggregate(At(es, q[|p|..]).value)) else Recorded(before, q)
    {
      if p < q {
        var r := q[|p|..];
        assert r[0] == q[|p|] && (sub <= q <==> r[0] == last.name);
        if r[0] == last.name {
          WalkInside(p, es, before, middle, inner, after, q);
        }
      }
    }
  }

  lemma DirectoriesWellNamed(f: Forest, p: Path)
    requires WellRooted(f) && DirAt(f, p).Some?
    ensures WellNamed(DirAt(f, p).value)
  {
    AtWellNamed(f[p[..2]], p[2..]);
  }

  lemma {:induction false} AtWellNamed(es: seq<Entry>, p: Path)
    requires WellNamed(es) && At(es, p).Some?
    ensures WellNamed(At(es, p).value)
    decreases |p|, |es|
  {
    if p != [] {
      var last := es[|es| - 1];
      if last.DirEntry? && last.name == p[0] {
        AtWellNamed(last.entries, p[1..]);
      } else {
        AtWellNamed(es[..|es| - 1], p);
      }
    }
  }

  /** A path below `p` is looked up from `p`. */
  lemma {:induction false} AtThrough(es: seq<Entry>, p: Path, r: Path)
    requires WellNamed(es) && At(es, p).Some?
    ensures At(es, p + r) == At(At(es, p).value, r)
    decreases |p|, |es|
  {
    if p == [] {
      assert p + r == r;
    } else {
      var last := es[|es| - 1];
      assert (p + r)[1..] == p[1..] + r;
      if last.DirEntry? && last.name == p[0] {
        AtThrough(last.entries, p[1..], r);
      } else {
        AtThrough(es[..|es| - 1], p, r);
      }
    }
  }

  lemma WalkAgrees(f: Forest, p: Path, collected: Records, before: Records, after: Records)
    requires WellRooted(f) && DirAt(f, p).Some?
    requires WalkCollects(p, DirAt(f, p).value, map[], collected)
    requires after == before + collected[p := Aggregate(DirAt(f, p).value)]
    ensures forall q :: p <= q ==> Agrees(after, f, q)
    ensures forall q :: !(p <= q && DirAt(f, q).Some?) ==> Recorded(after, q) == Recorded(before, q)
  {
    forall q ensures p <= q ==> Agrees(after, f, q)
      ensures !(p <= q && DirAt(f, q).Some?) ==> Recorded(after, q) == Recorded(before, q)
    {
      WalkAgreesAt(f, p, collected, before, after, q);
    }
  }

  lemma WalkAgreesAt(f: Forest, p: Path, collected: Records, before: Records, after: Records, q: Path)
    requires WellRooted(f) && DirAt(f, p).Some?
    requires WalkCollects(p, DirAt(f, p).value, map[], collected)
    requires after == before + collected[p := Aggregate(DirAt(f, p).value)]
    ensures p <= q ==> Agrees(after, f, q)
    ensures !(p <= q && DirAt(f, q).Some?) ==> Recorded(after, q) == Recorded(before, q)
  {
    CollectedAt(p, DirAt(f, p).value, map[], collected, q);
    if p <= q {
      LookedUpFrom(f, p, q);
    }
    hide At, DirAt, Aggregate, WalkCollects, WellNamed;
    assert p <= q ==> p < q || q == p;
  }

  /** A directory below `p` is what a look-up from `p` finds. */
  lemma LookedUpFrom(f: Forest, p: Path, q: Path)
    requires WellRooted(f) && DirAt(f, p).Some? && p <= q
    ensures DirAt(f, q) == At(DirAt(f, p).value, q[|p|..])
  {
    assert q[..2] == p[..2] && q[2..] == p[2..] + q[|p|..];
    AtThrough(f[p[..2]], p[2..], q[|p|..]);
  }
}
