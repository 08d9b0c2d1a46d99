/** Directories on storage, and what a full walk says about them. */
module DirectoryTree {
  import opened Wrappers

  type Name = string
  /** A path in logical form, split at its slashes: category, pseudo name, and what follows. */
  type Path = seq<Name>

  /** What a listing of a directory yields, in listing order. */
  datatype Entry =
    | FileEntry(isVideo: bool, size: nat, mtime: nat)
    | DirEntry(name: Name, entries: seq<Entry>)

  datatype Meta = Meta(size: nat, mtime: nat)

  const EMPTY := Meta(0, 0)

  function Max(a: nat, b: nat): nat {
    if a > b then a else b
  }

  function Plus(a: Meta, b: Meta): Meta {
    Meta(a.size + b.size, Max(a.mtime, b.mtime))
  }

  /** The aggregate of a directory by a full walk: all video files below it, however deep. */
  function Aggregate(es: seq<Entry>): Meta {
    if es == [] then EMPTY
    else Plus(Aggregate(es[..|es| - 1]), EntryAggregate(es[|es| - 1]))
  }

  function EntryAggregate(e: Entry): Meta {
    match e
    case FileEntry(isVideo, size, mtime) => if isVideo then Meta(size, mtime) else EMPTY
    case DirEntry(_, entries) => Aggregate(entries)
  }

  /** The entries of the directory at a path below. */
  function At(es: seq<Entry>, p: Path): Option<seq<Entry>>
    decreases |p|, |es|
  {
    if p == [] then Some(es)
    else if es == [] then None
    else
      var last := es[|es| - 1];
      if last.DirEntry? && last.name == p[0] then At(last.entries, p[1..]) else At(es[..|es| - 1], p)
  }

  /** No directory holds two sub-directories of the same name. */
  predicate WellNamed(es: seq<Entry>) {
    && (forall i, j :: 0 <= i < j < |es| && es[i].DirEntry? && es[j].DirEntry? ==> es[i].name != es[j].name)
    && (forall i :: 0 <= i < |es| && es[i].DirEntry? ==> WellNamed(es[i].entries))
  }

  // ---------------------------------------------------------------- what a full walk says

  /** A place in a tree: the path of a directory and an index into its listing. */
  datatype Place = Place(dir: Path, index: nat)

  predicate HasVideo(es: seq<Entry>, p: Place) {
    && At(es, p.dir).Some? && p.index < |At(es, p.dir).value|
    && At(es, p.dir).value[p.index].FileEntry? && At(es, p.dir).value[p.index].isVideo
  }

  function VideoAt(es: seq<Entry>, p: Place): (e: Entry)
    requires HasVideo(es, p)
    ensures e.FileEntry? && e.isVideo
  {
    At(es, p.dir).value[p.index]
  }

  /** These are the video files of the tree, however deep, each once. */
  ghost predicate AllVideos(es: seq<Entry>, ps: seq<Place>) {
    && (forall p :: p in ps <==> HasVideo(es, p))
    && (forall i, j :: 0 <= i < j < |ps| ==> ps[i] != ps[j])
  }

  function TotalSize(es: seq<Entry>, ps: seq<Place>): nat
    requires forall p :: p in ps ==> HasVideo(es, p)
  {
    if ps == [] then 0 else TotalSize(es, ps[..|ps| - 1]) + VideoAt(es, ps[|ps| - 1]).size
  }

  /** The time is that of the latest of them, and zero where there is none. */
  ghost predicate IsLatest(es: seq<Entry>, ps: seq<Place>, mtime: nat)
    requires forall p :: p in ps ==> HasVideo(es, p)
  {
    && (forall p :: p in ps ==> VideoAt(es, p).mtime <= mtime)
    && (if ps == [] then mtime == 0 else exists p :: p in ps && VideoAt(es, p).mtime == mtime)
  }

  /** The places of a sub-directory's tree, seen from the directory above. */
  function Under(name: Name, ps: seq<Place>): (qs: seq<Place>)
    ensures forall q :: q in qs ==> q.dir != [] && q.dir[0] == name
  {
    seq(|ps|, i requires 0 <= i < |ps| => Place([name] + ps[i].dir, ps[i].index))
  }

  lemma {:induction false} NoSuchDirectory(es: seq<Entry>, p: Path)
    requires p != [] && forall i :: 0 <= i < |es| && es[i].DirEntry? ==> es[i].name != p[0]
    ensures At(es, p).None?
    decreases |es|
  {
    if es != [] {
      NoSuchDirectory(es[..|es| - 1], p);
    }
  }

  /** What was there before the last entry is there still. */
  lemma FrontStays(es: seq<Entry>, p: Place)
    requires es != [] && WellNamed(es) && HasVideo(es[..|es| - 1], p)
    ensures HasVideo(es, p) && VideoAt(es, p) == VideoAt(es[..|es| - 1], p)
  {
    var front, last := es[..|es| - 1], es[|es| - 1];
    if p.dir != [] && last.DirEntry? && last.name == p.dir[0] {
      NoSuchDirectory(front, p.dir);
    }
  }

  /** And what is there now was there before, or is the last entry, or lies below it. */
  lemma FrontOrLast(es: seq<Entry>, p: Place)
    requires es != [] && WellNamed(es) && HasVideo(es, p)
    ensures var last := es[|es| - 1];
      || HasVideo(es[..|es| - 1], p)
      || (last.FileEntry? && last.isVideo && p == Place([], |es| - 1))
      || (last.DirEntry? && p.dir != [] && p.dir[0] == last.name && HasVideo(last.entries, Place(p.dir[1..], p.index)))
  {
  }

  lemma LastIsNew(es: seq<Entry>, p: Place)
    requires es != [] && WellNamed(es)
    requires var last := es[|es| - 1];
      if last.DirEntry? then p.dir != [] && p.dir[0] == last.name else p == Place([], |es| - 1)
    ensures !HasVideo(es[..|es| - 1], p)
  {
    if p.dir != [] {
      NoSuchDirectory(es[..|es| - 1], p.dir);
    }
  }

  lemma BelowLast(es: seq<Entry>, p: Place)
    requires es != [] && es[|es| - 1].DirEntry? && HasVideo(es[|es| - 1].entries, p)
    ensures var q := Place([es[|es| - 1].name] + p.dir, p.index);
      HasVideo(es, q) && VideoAt(es, q) == VideoAt(es[|es| - 1].entries, p)
  {
    assert ([es[|es| - 1].name] + p.dir)[1..] == p.dir;
  }

  lemma {:induction false} TotalConcat(es: seq<Entry>, a: seq<Place>, b: seq<Place>)
    requires forall p :: p in a + b ==> HasVideo(es, p)
    requires forall p :: p in a ==> HasVideo(es, p)
    requires forall p :: p in b ==> HasVideo(es, p)
    ensures TotalSize(es, a + b) == TotalSize(es, a) + TotalSize(es, b)
    decreases |b|
  {
    hide HasVideo, VideoAt;
    if b == [] {
      assert a + b == a;
    } else {
      var b' := b[..|b| - 1];
      assert (a + b)[..|a + b| - 1] == a + b';
      TotalConcat(es, a, b');
    }
  }

  lemma LatestConcat(es: seq<Entry>, a: seq<Place>, b: seq<Place>, m: nat, n: nat)
    requires forall p :: p in a + b ==> HasVideo(es, p)
    requires forall p :: p in a ==> HasVideo(es, p)
    requires forall p :: p in b ==> HasVideo(es, p)
    requires IsLatest(es, a, m) && IsLatest(es, b, n)
    ensures IsLatest(es, a + b, Max(m, n))
  {
    hide HasVideo, VideoAt;
    if a + b != [] {
      var c := if a == [] || (b != [] && n >= m) then b else a;
      var p :| p in c && VideoAt(es, p).mtime == if c == b then n else m;
      assert p in a + b;
    }
  }

  /** Seen from another tree in which they are the same files, places count the same. */
  lemma {:induction false} SameFilesSameTotal(es: seq<Entry>, ps: seq<Place>, es': seq<Entry>, ps': seq<Place>)
    requires |ps| == |ps'| && (forall p :: p in ps ==> HasVideo(es, p)) && (forall p :: p in ps' ==> HasVideo(es', p))
    requires forall i :: 0 <= i < |ps| ==> VideoAt(es, ps[i]) == VideoAt(es', ps'[i])
    ensures TotalSize(es, ps) == TotalSize(es', ps')
    ensures forall m :: IsLatest(es, ps, m) ==> IsLatest(es', ps', m)
    decreases |ps|
  {
    hide HasVideo, VideoAt;
    if ps != [] {
      SameFilesSameTotal(es, ps[..|ps| - 1], es', ps'[..|ps| - 1]);
      forall m | IsLatest(es, ps, m) ensures IsLatest(es', ps', m) {
        forall q | q in ps' ensures VideoAt(es', q).mtime <= m {
          var i :| 0 <= i < |ps'| && ps'[i] == q;
          assert ps[i] in ps;
        }
        var p :| p in ps && VideoAt(es, p).mtime == m;
        var i :| 0 <= i < |ps| && ps[i] == p;
        assert ps'[i] in ps';
      }
    }
  }

  /** These are the video files whose places the last entry brings. */
  ghost predicate LastVideos(es: seq<Entry>, ps: seq<Place>)
    requires es != []
  {
    && (forall p :: p in ps ==> HasVideo(es, p) && !HasVideo(es[..|es| - 1], p))
    && (forall p :: HasVideo(es, p) ==> p in ps || HasVideo(es[..|es| - 1], p))
    && (forall i, j :: 0 <= i < j < |ps| ==> ps[i] != ps[j])
  }

  /** What a walk says of a tree is its videos' total and latest. */
  ghost predicate Exact(es: seq<Entry>, ps: seq<Place>, m: Meta)
    requires forall p :: p in ps ==> HasVideo(es, p)
  {
    m.size == TotalSize(es, ps) && IsLatest(es, ps, m.mtime)
  }

  /** Below the last entry: the same files, one name further down. */
  lemma LastDirectory(es: seq<Entry>, inner: seq<Place>, m: Meta) returns (ps: seq<Place>)
    requires es != [] && WellNamed(es) && es[|es| - 1].DirEntry?
    requires AllVideos(es[|es| - 1].entries, inner) && Exact(es[|es| - 1].entries, inner, m)
    ensures ps == Under(es[|es| - 1].name, inner)
    ensures (forall p :: p in ps ==> HasVideo(es, p)) && Exact(es, ps, m)
    ensures forall i, j :: 0 <= i < j < |ps| ==> ps[i] != ps[j]
  {
    hide At, WellNamed;
    var last := es[|es| - 1];
    ps := Under(last.name, inner);
    forall i | 0 <= i < |ps| ensures HasVideo(es, ps[i]) && VideoAt(es, ps[i]) == VideoAt(last.entries, inner[i]) {
      assert inner[i] in inner;
      BelowLast(es, inner[i]);
    }
    hide HasVideo, VideoAt;
    forall i, j | 0 <= i < j < |ps| ensures ps[i] != ps[j] {
      assert ps[i].dir[1..] == inner[i].dir && ps[j].dir[1..] == inner[j].dir;
    }
    SameFilesSameTotal(last.entries, inner, es, ps);
  }

  lemma DirectoryVideos(es: seq<Entry>, inner: seq<Place>)
    requires es != [] && WellNamed(es) && es[|es| - 1].DirEntry? && AllVideos(es[|es| - 1].entries, inner)
    requires forall p :: p in Under(es[|es| - 1].name, inner) ==> HasVideo(es, p)
    ensures var ps := Under(es[|es| - 1].name, inner);
      && (forall p :: p in ps ==> !HasVideo(es[..|es| - 1], p))
      && (forall p :: HasVideo(es, p) ==> p in ps || HasVideo(es[..|es| - 1], p))
  {
    hide At, WellNamed, HasVideo, Under;
    var last, ps := es[|es| - 1], Under(es[|es| - 1].name, inner);
    forall p | p in ps ensures !HasVideo(es[..|es| - 1], p) {
      LastIsNew(es, p);
    }
    forall p | HasVideo(es, p) ensures p in ps || HasVideo(es[..|es| - 1], p) {
      FrontOrLast(es, p);
      if !HasVideo(es[..|es| - 1], p) {
        IsUnder(last.name, inner, p);
      }
    }
  }

  lemma IsUnder(name: Name, inner: seq<Place>, p: Place)
    requires p.dir != [] && p.dir[0] == name && Place(p.dir[1..], p.index) in inner
    ensures p in Under(name, inner)
  {
    var i :| 0 <= i < |inner| && inner[i] == Place(p.dir[1..], p.index);
    assert p.dir == [name] + inner[i].dir;
    assert Under(name, inner)[i] == p;
  }

  /** The last entry is a file: itself, if it is a video. */
  lemma LastFile(es: seq<Entry>) returns (ps: seq<Place>)
    requires es != [] && WellNamed(es) && es[|es| - 1].FileEntry?
    ensures LastVideos(es, ps) && Exact(es, ps, EntryAggregate(es[|es| - 1]))
  {
    ps := if es[|es| - 1].isVideo then [Place([], |es| - 1)] else [];
    if ps != [] {
      assert VideoAt(es, ps[0]) == es[|es| - 1] && ps[..0] == [];
      assert TotalSize(es, ps) == TotalSize(es, ps[..0]) + es[|es| - 1].size;
      assert ps[0] in ps;
      LastIsNew(es, ps[0]);
    }
    forall p | HasVideo(es, p) ensures p in ps || HasVideo(es[..|es| - 1], p) {
      FrontOrLast(es, p);
    }
  }

  lemma BothVideos(es: seq<Entry>, before: seq<Place>, own: seq<Place>)
    requires es != [] && AllVideos(es[..|es| - 1], before) && LastVideos(es, own)
    requires forall p :: p in before ==> HasVideo(es, p)
    ensures AllVideos(es, before + own)
  {
    hide HasVideo;
    var all := before + own;
    forall p ensures p in all <==> HasVideo(es, p) {
      assert p in all <==> p in before || p in own;
      assert HasVideo(es, p) ==> p in own || HasVideo(es[..|es| - 1], p);
    }
    forall i, j | 0 <= i < j < |all| ensures all[i] != all[j] {
      if i < |before| && |before| <= j {
        assert before[i] in before && own[j - |before|] in own;
      }
    }
  }

  lemma BothExact(es: seq<Entry>, before: seq<Place>, own: seq<Place>, m: Meta, n: Meta)
    requires forall p :: p in before + own ==> HasVideo(es, p)
    requires forall p :: p in before ==> HasVideo(es, p)
    requires forall p :: p in own ==> HasVideo(es, p)
    requires Exact(es, before, m) && Exact(es, own, n)
    ensures Exact(es, before + own, Plus(m, n))
  {
    hide HasVideo, IsLatest, Max;
    TotalConcat(es, before, own);
    LatestConcat(es, before, own, m.mtime, n.mtime);
  }

  lemma WithLast(es: seq<Entry>, before: seq<Place>, own: seq<Place>)
    requires es != [] && WellNamed(es) && AllVideos(es[..|es| - 1], before) && LastVideos(es, own)
    requires Exact(es[..|es| - 1], before, Aggregate(es[..|es| - 1])) && Exact(es, own, EntryAggregate(es[|es| - 1]))
    ensures AllVideos(es, before + own) && Exact(es, before + own, Aggregate(es))
  {
    hide At, HasVideo, VideoAt, WellNamed, Aggregate, EntryAggregate, Plus, TotalSize, IsLatest;
    var front := es[..|es| - 1];
    forall p | p in before ensures HasVideo(es, p) && VideoAt(es, p) == VideoAt(front, p) {
      FrontStays(es, p);
    }
    SameFilesSameTotal(front, before, es, before);
    BothVideos(es, before, own);
    hide AllVideos, LastVideos;
    BothExact(es, before, own, Aggregate(front), EntryAggregate(es[|es| - 1]));
    AggregateLast(es);
  }

  lemma AggregateLast(es: seq<Entry>)
    requires es != []
    ensures Aggregate(es) == Plus(Aggregate(es[..|es| - 1]), EntryAggregate(es[|es| - 1]))
    ensures es[|es| - 1].DirEntry? ==> EntryAggregate(es[|es| - 1]) == Aggregate(es[|es| - 1].entries)
  {
  }

  /**
   A full walk: the size is the sum over exactly the video files below, at any depth, each once; the time is that of
   the latest of them, and zero where there is none.
   */
  lemma {:induction false} AggregateIsExact(es: seq<Entry>) returns (ps: seq<Place>)
    requires WellNamed(es)
    ensures AllVideos(es, ps)
    ensures Aggregate(es).size == TotalSize(es, ps) && IsLatest(es, ps, Aggregate(es).mtime)
    decreases es
  {
    if es == [] {
      ps := [];
    } else {
      var last := es[|es| - 1];
      var before := AggregateIsExact(es[..|es| - 1]);
      var own: seq<Place>;
      if last.DirEntry? {
        var inner := AggregateIsExact(last.entries);
        hide HasVideo, VideoAt, TotalSize, IsLatest;
        AggregateLast(es);
        own := LastDirectory(es, inner, Aggregate(last.entries));
        DirectoryVideos(es, inner);
      } else {
        own := LastFile(es);
      }
      hide HasVideo, VideoAt, TotalSize, IsLatest, Aggregate, EntryAggregate, WellNamed;
      WithLast(es, before, own);
      ps := before + own;
    }
  }

  /** The mounts: one tree under each logical root, a root being category and pseudo name. */
  type Forest = map<Path, seq<Entry>>

  predicate WellRooted(f: Forest) {
    forall r :: r in f ==> |r| == 2 && WellNamed(f[r])
  }

  function DirAt(f: Forest, p: Path): Option<seq<Entry>> {
    if |p| >= 2 && p[..2] in f then At(f[p[..2]], p[2..]) else None
  }

  lemma {:induction false} AtChild(es: seq<Entry>, p: Path, i: nat)
    requires WellNamed(es) && At(es, p).Some? && i < |At(es, p).value| && At(es, p).value[i].DirEntry?
    ensures At(es, p + [At(es, p).value[i].name]) == Some(At(es, p).value[i].entries)
    ensures WellNamed(At(es, p).value)
    decreases |p|, |es|
  {
    if p == [] {
      LookupChild(es, i);
      assert [] + [es[i].name] == [es[i].name];
    } else {
      var last := es[|es| - 1];
      assert (p + [At(es, p).value[i].name])[1..] == p[1..] + [At(es, p).value[i].name];
      if last.DirEntry? && last.name == p[0] {
        AtChild(last.entries, p[1..], i);
      } else {
        AtChild(es[..|es| - 1], p, i);
      }
    }
  }

  lemma {:induction false} LookupChild(es: seq<Entry>, i: nat)
    requires WellNamed(es) && i < |es| && es[i].DirEntry?
    ensures At(es, [es[i].name]) == Some(es[i].entries)
    decreases |es|
  {
    if i < |es| - 1 {
      LookupChild(es[..|es| - 1], i);
    }
  }

  /** The sub-directories of a directory are where their names say. */
  lemma ChildAt(f: Forest, p: Path, i: nat)
    requires WellRooted(f) && DirAt(f, p).Some? && i < |DirAt(f, p).value| && DirAt(f, p).value[i].DirEntry?
    ensures DirAt(f, p + [DirAt(f, p).value[i].name]) == Some(DirAt(f, p).value[i].entries)
  {
    AtChild(f[p[..2]], p[2..], i);
    var q := p + [DirAt(f, p).value[i].name];
    assert q[..2] == p[..2] && q[2..] == p[2..] + [DirAt(f, p).value[i].name];
  }

  /** The parent of a directory is a directory. */
  lemma ParentAt(f: Forest, p: Path)
    requires DirAt(f, p).Some? && p !in f && WellRooted(f)
    ensures |p| > 2 && DirAt(f, p[..|p| - 1]).Some?
  {
    assert p[..2] == p || |p| > 2;
    AtParent(f[p[..2]], p[2..]);
    assert p[..|p| - 1][..2] == p[..2] && p[..|p| - 1][2..] == p[2..][..|p| - 3];
  }

  lemma {:induction false} AtParent(es: seq<Entry>, p: Path)
    requires p != [] && At(es, p).Some?
    ensures At(es, p[..|p| - 1]).Some?
    decreases |p|, |es|
  {
    if |p| > 1 {
      var last := es[|es| - 1];
      assert p[..|p| - 1][1..] == p[1..][..|p| - 2];
      if last.DirEntry? && last.name == p[0] {
        AtParent(last.entries, p[1..]);
      } else {
        AtParent(es[..|es| - 1], p);
      }
    }
  }

  // ---------------------------------------------------------------- files change inside one directory

  /** The directory at `q` now holds the files `files` beside its sub-directories. */
  function ReplaceFiles(es: seq<Entry>, q: Path, files: seq<Entry>): seq<Entry>
    decreases |q|, |es|
  {
    if q == [] then OnlyDirs(es) + files
    else if es == [] then []
    else
      var last := es[|es| - 1];
      ReplaceFiles(es[..|es| - 1], q, files)
      + [if last.DirEntry? && last.name == q[0]
         then DirEntry(last.name, ReplaceFiles(last.entries, q[1..], files)) else last]
  }

  function OnlyDirs(es: seq<Entry>): seq<Entry> {
    if es == [] then []
    else OnlyDirs(es[..|es| - 1]) + (if es[|es| - 1].DirEntry? then [es[|es| - 1]] else [])
  }

  predicate OnlyFiles(es: seq<Entry>) {
    forall i :: 0 <= i < |es| ==> es[i].FileEntry?
  }

  lemma {:induction false} AtBesideFiles(es: seq<Entry>, files: seq<Entry>, p: Path)
    requires OnlyFiles(files) && p != []
    ensures At(es + files, p) == At(es, p)
    decreases |files|
  {
    if files == [] {
      assert es + files == es;
    } else {
      assert (es + files)[..|es + files| - 1] == es + files[..|files| - 1];
      AtBesideFiles(es, files[..|files| - 1], p);
    }
  }

  lemma {:induction false} AtOnlyDirs(es: seq<Entry>, p: Path)
    requires p != []
    ensures At(OnlyDirs(es), p) == At(es, p)
    decreases |es|
  {
    if es != [] {
      AtOnlyDirs(es[..|es| - 1], p);
      var rest := OnlyDirs(es[..|es| - 1]);
      if es[|es| - 1].DirEntry? {
        assert OnlyDirs(es)[..|OnlyDirs(es)| - 1] == rest;
      } else {
        assert OnlyDirs(es) == rest;
      }
    }
  }

  /** A directory that is neither `q` nor above it looks the same afterwards. */
  lemma {:induction false} ReplaceElsewhere(es: seq<Entry>, q: Path, files: seq<Entry>, p: Path)
    requires OnlyFiles(files) && !(p <= q)
    ensures At(ReplaceFiles(es, q, files), p) == At(es, p)
    decreases |q|, |es|
  {
    if q == [] {
      AtBesideFiles(OnlyDirs(es), files, p);
      AtOnlyDirs(es, p);
    } else if es != [] {
      var last := es[|es| - 1];
      var es' := ReplaceFiles(es, q, files);
      assert es'[..|es'| - 1] == ReplaceFiles(es[..|es| - 1], q, files);
      ReplaceElsewhere(es[..|es| - 1], q, files, p);
      if last.DirEntry? && last.name == q[0] && p[0] == q[0] {
        assert p == [p[0]] + p[1..] && q == [q[0]] + q[1..];
        ReplaceElsewhere(last.entries, q[1..], files, p[1..]);
      }
    }
  }

  lemma {:induction false} ReplaceKeepsDirectories(es: seq<Entry>, q: Path, files: seq<Entry>, p: Path)
    requires OnlyFiles(files)
    ensures At(ReplaceFiles(es, q, files), p).Some? <==> At(es, p).Some?
    decreases |q|, |es|
  {
    if !(p <= q) {
      ReplaceElsewhere(es, q, files, p);
    } else if p != [] && es != [] {
      var last := es[|es| - 1];
      var es' := ReplaceFiles(es, q, files);
      assert es'[..|es'| - 1] == ReplaceFiles(es[..|es| - 1], q, files);
      ReplaceKeepsDirectories(es[..|es| - 1], q, files, p);
      if last.DirEntry? && last.name == q[0] {
        ReplaceKeepsDirectories(last.entries, q[1..], files, p[1..]);
      }
    }
  }

  lemma {:induction false} ReplaceKeepsNames(es: seq<Entry>, q: Path, files: seq<Entry>)
    requires WellNamed(es) && OnlyFiles(files)
    ensures WellNamed(ReplaceFiles(es, q, files))
    ensures q != [] ==> SameNames(es, ReplaceFiles(es, q, files))
    decreases |q|, |es|
  {
    if q == [] {
      OnlyDirsKeepsNames(es);
    } else if es != [] {
      var front, last := es[..|es| - 1], es[|es| - 1];
      ReplaceKeepsNames(front, q, files);
      var inner := last;
      if last.DirEntry? && last.name == q[0] {
        ReplaceKeepsNames(last.entries, q[1..], files);
        inner := DirEntry(last.name, ReplaceFiles(last.entries, q[1..], files));
      }
      assert ReplaceFiles(es, q, files) == ReplaceFiles(front, q, files) + [inner];
      hide ReplaceFiles;
      OneMoreNamed(es, ReplaceFiles(front, q, files), inner);
    }
  }

  lemma OneMoreNamed(es: seq<Entry>, front': seq<Entry>, last': Entry)
    requires es != [] && WellNamed(es) && SameNames(es[..|es| - 1], front') && WellNamed(front')
    requires SameNames([es[|es| - 1]], [last']) && (last'.DirEntry? ==> WellNamed(last'.entries))
    ensures WellNamed(front' + [last']) && SameNames(es, front' + [last'])
  {
    var es' := front' + [last'];
    forall i | 0 <= i < |es| - 1 ensures es'[i] == front'[i] && es[i] == es[..|es| - 1][i] {
    }
    assert SameNames(es, es') by {
      assert [es[|es| - 1]][0] == es[|es| - 1] && [last'][0] == last';
    }
  }

  predicate SameNames(es: seq<Entry>, es': seq<Entry>) {
    && |es| == |es'|
    && forall i :: 0 <= i < |es| ==>
         (es[i].DirEntry? <==> es'[i].DirEntry?) && (es[i].DirEntry? ==> es[i].name == es'[i].name)
  }

  lemma {:induction false} OnlyDirsKeepsNames(es: seq<Entry>)
    requires WellNamed(es)
    ensures WellNamed(OnlyDirs(es))
    ensures forall d :: d in OnlyDirs(es) ==> d.DirEntry? && d in es
  {
    if es != [] {
      var front, last := es[..|es| - 1], es[|es| - 1];
      OnlyDirsKeepsNames(front);
      if last.DirEntry? {
        forall i | 0 <= i < |OnlyDirs(front)| ensures OnlyDirs(front)[i].name != last.name {
          assert OnlyDirs(front)[i] in front;
        }
      } else {
        assert OnlyDirs(es) == OnlyDirs(front);
      }
    }
  }

  /** The storage after the files directly inside the directory `q` became `files`. */
  function FilesBecome(f: Forest, q: Path, files: seq<Entry>): Forest
    requires DirAt(f, q).Some?
  {
    f[q[..2] := ReplaceFiles(f[q[..2]], q[2..], files)]
  }

  /** A change of files moves no directory, and only the directory and its ancestors look different. */
  lemma FilesBecomeLocal(f: Forest, q: Path, files: seq<Entry>, p: Path)
    requires WellRooted(f) && DirAt(f, q).Some? && OnlyFiles(files)
    ensures DirAt(FilesBecome(f, q, files), p).Some? <==> DirAt(f, p).Some?
    ensures !(p <= q) ==> DirAt(FilesBecome(f, q, files), p) == DirAt(f, p)
  {
    if |p| >= 2 && p[..2] == q[..2] {
      ReplaceKeepsDirectories(f[q[..2]], q[2..], files, p[2..]);
      if !(p <= q) {
        assert p == p[..2] + p[2..] && q == q[..2] + q[2..];
        ReplaceElsewhere(f[q[..2]], q[2..], files, p[2..]);
      }
    }
  }

  lemma FilesBecomeWellRooted(f: Forest, q: Path, files: seq<Entry>)
    requires WellRooted(f) && DirAt(f, q).Some? && OnlyFiles(files)
    ensures WellRooted(FilesBecome(f, q, files))
  {
    ReplaceKeepsNames(f[q[..2]], q[2..], files);
  }
}
