/** Logical and physical paths of locally mounted resources. */
module LocalPaths {
  import opened Wrappers
  import opened PathText

  datatype Mount = Mount(pseudoName: string, host: string)

  /** One category: its mounts in configuration order; `root` is empty outside a container. */
  datatype Handler = Handler(category: string, mounts: seq<Mount>, root: string)

  function Slashed(s: string): (r: string)
    ensures |r| == |s| && forall i :: 0 <= i < |s| ==> r[i] == if s[i] == '\\' then '/' else s[i]
    ensures NoBackslash(r)
    ensures NoBackslash(s) ==> r == s
  {
    seq(|s|, i requires 0 <= i < |s| => if s[i] == '\\' then '/' else s[i])
  }

  function Standard(path: string): string {
    Slashed(NormPath(path))
  }

  function Base(h: Handler, i: nat): string
    requires i < |h.mounts|
  {
    if h.root != "" then PosixJoin(PosixJoin(h.root, h.category), h.mounts[i].pseudoName) else h.mounts[i].host
  }

  /** Where a mount lies, in normal form. */
  function Mounted(h: Handler, i: nat): string
    requires i < |h.mounts|
  {
    Standard(Base(h, i))
  }

  predicate Under(path: string, mount: string) {
    path == mount || mount + "/" <= path
  }

  /** The first mount a path lies under. */
  function FirstMount(h: Handler, path: string, start: nat): (r: Option<nat>)
    requires start <= |h.mounts|
    ensures r.Some? ==> start <= r.value < |h.mounts|
    decreases |h.mounts| - start
  {
    if start == |h.mounts| then None
    else if Under(path, Mounted(h, start)) then Some(start)
    else FirstMount(h, path, start + 1)
  }

  lemma {:induction false} FirstMountFinds(h: Handler, path: string, start: nat)
    requires start <= |h.mounts|
    ensures var r := FirstMount(h, path, start);
      && (r.Some? ==> Under(path, Mounted(h, r.value)))
      && forall j :: start <= j < |h.mounts| && (r.Some? ==> j < r.value) ==> !Under(path, Mounted(h, j))
    decreases |h.mounts| - start
  {
    hide Mounted, Under;
    if start < |h.mounts| {
      FirstMountFinds(h, path, start + 1);
    }
  }

  function FindMount(h: Handler, pseudoName: string, start: nat): (r: Option<nat>)
    requires start <= |h.mounts|
    ensures r.Some? ==> start <= r.value < |h.mounts| && h.mounts[r.value].pseudoName == pseudoName
    ensures r.None? ==> forall j :: start <= j < |h.mounts| ==> h.mounts[j].pseudoName != pseudoName
    decreases |h.mounts| - start
  {
    if start == |h.mounts| then None
    else if h.mounts[start].pseudoName == pseudoName then Some(start)
    else FindMount(h, pseudoName, start + 1)
  }

  /** `convert_to_DB_format_path`: a logical path stays, a path under a mount is renamed, any other stays. */
  function ToDb(h: Handler, path: string): string {
    var p := Standard(path);
    if h.category + "/" <= p then p
    else
      match FirstMount(h, p, 0)
      case None => p
      case Some(i) =>
        var relative := StripLeft(Past(p, |Mounted(h, i)|));
        if relative != "" then h.category + "/" + h.mounts[i].pseudoName + "/" + relative
        else h.category + "/" + h.mounts[i].pseudoName
  }

  /** `convert_to_FS_format_path`: a logical path under a known pseudo name is renamed, any other text is normalised. */
  function ToFs(h: Handler, path: string): string {
    var p := Standard(path);
    if h.category + "/" <= p then
      var rest := p[|h.category| + 1..];
      match FindMount(h, Before(rest), 0)
      case None => Standard(path)
      case Some(i) => if After(rest) != "" then Standard(PosixJoin(Base(h, i), After(rest))) else Standard(Base(h, i))
    else Standard(path)
  }

  // ---------------------------------------------------------------- what a configuration must be

  predicate PlainName(c: string) {
    Name(c) && c != ".." && NoBackslash(c)
  }

  predicate PlainNames(cs: seq<string>) {
    forall i :: 0 <= i < |cs| ==> PlainName(cs[i])
  }

  /** The mount is more than a bare root directory. */
  predicate BelowRoot(h: Handler, i: nat)
    requires i < |h.mounts|
  {
    Reduced(Mounted(h, i)) != []
  }

  predicate NoRoots(h: Handler) {
    forall i :: 0 <= i < |h.mounts| ==> BelowRoot(h, i)
  }

  predicate MountOk(h: Handler, i: nat)
    requires i < |h.mounts|
  {
    && PlainName(h.mounts[i].pseudoName) && "/" <= Mounted(h, i) && Normal(Mounted(h, i))
    && (BelowRoot(h, i) || NoBackslash(Base(h, i)))
  }

  predicate SingleSlashes(h: Handler) {
    forall i :: 0 <= i < |h.mounts| ==> Slashes(Mounted(h, i)) == 1
  }

  /**
   Pseudo names are single path parts, used once; a mount is an absolute directory.  Beside a mount that is the
   root itself no path starts with two slashes.
   */
  predicate WellMounted(h: Handler) {
    && PlainName(h.category)
    && (forall i :: 0 <= i < |h.mounts| ==> MountOk(h, i))
    && (forall i, j :: 0 <= i < j < |h.mounts| ==> h.mounts[i].pseudoName != h.mounts[j].pseudoName)
    && (NoRoots(h) || SingleSlashes(h))
  }

  predicate Fits(h: Handler, p: string) {
    NoRoots(h) || Slashes(p) != 2
  }

  /** The two spellings of one place. */
  function Logical(h: Handler, i: nat, relative: seq<string>): string
    requires i < |h.mounts|
  {
    Join([h.category, h.mounts[i].pseudoName] + relative)
  }

  function Physical(h: Handler, i: nat, relative: seq<string>): string
    requires i < |h.mounts|
  {
    if relative == [] then Mounted(h, i) else PosixJoin(Mounted(h, i), Join(relative))
  }

  // ---------------------------------------------------------------- facts about well-formed text

  lemma PlainJoin(cs: seq<string>)
    requires PlainNames(cs) && cs != []
    ensures Standard(Join(cs)) == Join(cs) && Normal(Join(cs))
    ensures Join(cs) != "" && Join(cs)[0] != '/'
    ensures Split(Join(cs)) == cs
  {
    NamesAreNormal(cs);
    JoinHead(cs);
    SplitJoin(cs);
    if '\\' in Join(cs) {
      JoinChars(cs, '\\');
    }
  }

  lemma JoinThree(a: string, b: string, names: seq<string>)
    ensures Join([a, b] + names) == (if names == [] then a + "/" + b else a + "/" + b + "/" + Join(names))
  {
    assert [a] + [b] == [a, b];
    JoinConcat([a], [b]);
    if names == [] {
      assert [a, b] + names == [a, b];
    } else {
      JoinConcat([a, b], names);
    }
  }

  lemma PlainThree(a: string, b: string, names: seq<string>)
    requires PlainName(a) && PlainName(b) && PlainNames(names)
    ensures PlainNames([a, b] + names)
  {
    hide PlainName;
  }

  lemma CategoryFacts(h: Handler)
    requires WellMounted(h)
    ensures PlainName(h.category) && Name(h.category) && h.category != ".." && h.category[0] != '/'
  {
  }

  lemma PseudoFacts(h: Handler, i: nat)
    requires WellMounted(h) && i < |h.mounts|
    ensures FindMount(h, h.mounts[i].pseudoName, 0) == Some(i)
    ensures PlainName(h.mounts[i].pseudoName) && NoSlash(h.mounts[i].pseudoName)
  {
    hide Mounted, Normal, Reduced;
    assert MountOk(h, i);
  }

  lemma MountFacts(h: Handler, i: nat)
    requires WellMounted(h) && i < |h.mounts|
    ensures var m := Mounted(h, i); m != "" && m[0] == '/' && NormPath(m) == m && NoBackslash(m)
    ensures BelowRoot(h, i) ==> var m := Mounted(h, i); |m| >= 2 && m[|m| - 1] != '/'
  {
    assert MountOk(h, i);
    hide Mounted, Reduced, NormPath;
    if BelowRoot(h, i) {
      NormalEnd(Mounted(h, i));
    }
  }

  lemma FittingMount(h: Handler, i: nat)
    requires WellMounted(h) && i < |h.mounts|
    ensures Fits(h, Mounted(h, i))
  {
    hide MountOk, Mounted, BelowRoot;
  }

  lemma LogicalText(h: Handler, i: nat, relative: seq<string>)
    requires WellMounted(h) && i < |h.mounts| && PlainNames(relative)
    ensures Logical(h, i, relative) ==
      (if relative == [] then h.category + "/" + h.mounts[i].pseudoName
       else h.category + "/" + h.mounts[i].pseudoName + "/" + Join(relative))
    ensures Standard(Logical(h, i, relative)) == Logical(h, i, relative)
    ensures Split(Logical(h, i, relative)) == [h.category, h.mounts[i].pseudoName] + relative
    ensures h.category + "/" <= Logical(h, i, relative)
  {
    hide Join, Standard, PlainNames, WellMounted, PlainName, FindMount, Normal, Split;
    var pseudo := h.mounts[i].pseudoName;
    CategoryFacts(h);
    PseudoFacts(h, i);
    PlainThree(h.category, pseudo, relative);
    PlainJoin([h.category, pseudo] + relative);
    JoinThree(h.category, pseudo, relative);
  }

  lemma PhysicalText(h: Handler, i: nat, relative: seq<string>)
    requires WellMounted(h) && i < |h.mounts| && PlainNames(relative)
    ensures Normal(Physical(h, i, relative)) && Standard(Physical(h, i, relative)) == Physical(h, i, relative)
    ensures !(h.category + "/" <= Physical(h, i, relative)) && "/" <= Physical(h, i, relative)
    ensures Fits(h, Physical(h, i, relative))
  {
    hide Mounted, Reduced, NormPath, Join, Split, WellMounted, PlainNames, PlainName, NoBackslash, PosixJoin, Slashes,
         NoRoots, BelowRoot;
    CategoryFacts(h);
    MountFacts(h, i);
    FittingMount(h, i);
    var m := Mounted(h, i);
    if relative != [] {
      PlainJoin(relative);
      PlainIsIrreducible(relative);
      NormPathOfRootedJoin(m, relative);
      JoinedText(m, Join(relative));
    }
    assert (h.category + "/")[0] == h.category[0];
    StartsWithSlash(Physical(h, i, relative));
  }

  lemma StartsWithSlash(p: string)
    requires p != "" && p[0] == '/'
    ensures "/" <= p
  {
  }

  lemma JoinedText(m: string, text: string)
    requires m != "" && m[0] == '/' && text != "" && text[0] != '/'
    requires NormPath(PosixJoin(m, text)) == PosixJoin(m, text)
    requires NormPath(m) == m && NoBackslash(m) && NoBackslash(text)
    ensures var p := PosixJoin(m, text); p != "" && p[0] == '/' && NoBackslash(p) && Slashes(p) == Slashes(m)
  {
    NormPathReads(m);
    if Reduced(m) != [] {
      NormalEnd(m);
      hide Reduced, NormPath;
      SlashesOfJoin(m, m, text);
    } else {
      assert m == Root(Slashes(m)) && (m == "/" || m == "//");
      hide Reduced, NormPath;
    }
  }

  lemma PlainIsIrreducible(cs: seq<string>)
    requires PlainNames(cs)
    ensures Irreducible(true, cs)
  {
  }

  lemma SlashedJoin(a: string, b: string)
    requires NoBackslash(b)
    ensures Slashed(a + "/" + b) == Slashed(a) + "/" + b
  {
  }

  lemma BaseHasParts(h: Handler, i: nat)
    requires i < |h.mounts| && BelowRoot(h, i)
    ensures Reduced(Base(h, i)) != []
  {
    hide Split, Reduce, Slashes;
    var base := Base(h, i);
    if Reduced(base) == [] {
      assert NoBackslash(NormPath(base));
      NormPathReads(base);
    }
  }

  lemma JoinTwo(a: string, b: string)
    ensures Join([a, b]) == a + "/" + b
  {
    assert [a, b][..1] == [a];
  }

  lemma JoinTwice(root: string, a: string, b: string)
    requires root != "" && root[|root| - 1] != '/' && a != "" && NoSlash(a) && b != "" && b[0] != '/'
    ensures PosixJoin(PosixJoin(root, a), b) == root + "/" + (a + "/" + b) == PosixJoin(root, a + "/" + b)
  {
    var base := root + "/" + a;
    assert a[0] != '/' && a[|a| - 1] != '/';
    assert PosixJoin(root, a) == base && base[|base| - 1] == a[|a| - 1];
    assert (a + "/" + b)[0] == a[0];
  }

  /** Two names under a directory, in normal form. */
  lemma TwoBelow(root: string, a: string, b: string)
    requires Normal(root) && Reduced(root) != [] && PlainName(a) && PlainName(b)
    ensures PosixJoin(PosixJoin(root, a), b) == root + "/" + (a + "/" + b)
    ensures Standard(root + "/" + (a + "/" + b)) == root + "/" + (a + "/" + b)
  {
    var names := [a, b];
    NormalEnd(root);
    assert b[0] != '/' && PlainNames(names) && NoBackslash(root + "/" + (a + "/" + b));
    JoinTwice(root, a, b);
    PlainIsIrreducible(names);
    hide Split, Reduce, NormPath, Reduced, Join, PosixJoin, Irreducible;
    JoinTwo(a, b);
    NormPathOfJoin(root, names);
  }

  /** In a container every mount lies under its category's directory; outside, at the configured place. */
  lemma MountIs(h: Handler, i: nat)
    requires i < |h.mounts| && PlainName(h.category) && PlainName(h.mounts[i].pseudoName)
    requires h.root != "" ==> Normal(h.root) && Reduced(h.root) != []
    ensures Mounted(h, i) ==
      if h.root == "" then Standard(h.mounts[i].host) else h.root + "/" + (h.category + "/" + h.mounts[i].pseudoName)
  {
    if h.root != "" {
      TwoBelow(h.root, h.category, h.mounts[i].pseudoName);
      hide *;
      MountedIs(h, i);
    }
  }

  lemma MountedIs(h: Handler, i: nat)
    requires i < |h.mounts| && h.root != ""
    ensures Mounted(h, i) == Standard(PosixJoin(PosixJoin(h.root, h.category), h.mounts[i].pseudoName))
  {
  }

  /** A base without backslashes lies where it is mounted, but for its spelling. */
  lemma BaseIsMounted(h: Handler, i: nat)
    requires i < |h.mounts| && NoBackslash(Base(h, i)) && "/" <= Mounted(h, i)
    ensures Mounted(h, i) == NormPath(Base(h, i)) && "/" <= Base(h, i)
  {
    NormPathReads(Base(h, i));
    NormPathKeepsNoBackslash(Base(h, i));
    hide Base, NormPath, Reduced;
  }

  // ---------------------------------------------------------------- conversions of well-formed paths

  /** How a logical text converts, by what follows the category. */
  lemma ToFsReads(h: Handler, rest: string, i: nat)
    requires Standard(h.category + "/" + rest) == h.category + "/" + rest && FindMount(h, Before(rest), 0) == Some(i)
    ensures ToFs(h, h.category + "/" + rest) ==
      (if After(rest) != "" then Standard(PosixJoin(Base(h, i), After(rest))) else Mounted(h, i))
  {
    hide Standard, Base, FindMount, PosixJoin, Before, After;
    assert (h.category + "/" + rest)[|h.category| + 1..] == rest;
  }

  lemma JoinedBase(h: Handler, i: nat, relative: seq<string>)
    requires WellMounted(h) && i < |h.mounts| && PlainNames(relative) && relative != []
    ensures Standard(PosixJoin(Base(h, i), Join(relative))) == PosixJoin(Mounted(h, i), Join(relative))
    ensures Join(relative) != ""
  {
    assert MountOk(h, i);
    hide Base, Reduced, NormPath, Join, Split, WellMounted, PlainNames, PlainName, PosixJoin, NoBackslash, Slashed;
    PlainJoin(relative);
    if BelowRoot(h, i) {
      BelowRootJoined(h, i, relative);
    } else {
      BaseIsMounted(h, i);
      PlainIsIrreducible(relative);
      NormPathOfRootedJoin(Base(h, i), relative);
      PhysicalText(h, i, relative);
      SlashedAlready(PosixJoin(Mounted(h, i), Join(relative)));
    }
  }

  lemma SlashedAlready(p: string)
    requires NoBackslash(p)
    ensures Slashed(p) == p
  {
  }

  lemma BelowRootJoined(h: Handler, i: nat, relative: seq<string>)
    requires WellMounted(h) && i < |h.mounts| && PlainNames(relative) && relative != [] && BelowRoot(h, i)
    ensures Standard(PosixJoin(Base(h, i), Join(relative))) == PosixJoin(Mounted(h, i), Join(relative))
    ensures PosixJoin(Mounted(h, i), Join(relative)) == Mounted(h, i) + "/" + Join(relative)
  {
    hide Base, Reduced, NormPath, Join, Split, WellMounted, PlainNames, PlainName, PosixJoin, NoBackslash, Slashed;
    MountFacts(h, i);
    PlainJoin(relative);
    PlainIsIrreducible(relative);
    BaseHasParts(h, i);
    NormPathOfJoin(Base(h, i), relative);
    SlashedJoin(NormPath(Base(h, i)), Join(relative));
    JoinPlain(Mounted(h, i), Join(relative));
  }

  lemma LogicalToPhysical(h: Handler, i: nat, relative: seq<string>)
    requires WellMounted(h) && i < |h.mounts| && PlainNames(relative)
    ensures ToFs(h, Logical(h, i, relative)) == Physical(h, i, relative)
  {
    hide Join, Split, Standard, Mounted, FindMount, WellMounted, PlainNames, PlainName, Before, After, Base,
         Logical, NoSlash;
    var pseudo := h.mounts[i].pseudoName;
    LogicalText(h, i, relative);
    PseudoFacts(h, i);
    var text := if relative == [] then "" else Join(relative);
    var rest := if relative == [] then pseudo else pseudo + "/" + text;
    Partition(pseudo, text);
    if relative != [] {
      JoinedBase(h, i, relative);
    }
    assert Logical(h, i, relative) == h.category + "/" + rest;
    ToFsReads(h, rest, i);
    hide ToFs;
  }

  /** How a physical text converts, by what follows the mount. */
  lemma ToDbReads(h: Handler, p: string, i: nat, rest: string)
    requires Standard(p) == p && !(h.category + "/" <= p) && FirstMount(h, p, 0) == Some(i)
    requires rest == "" || rest[0] != '/'
    requires p == (if rest == "" then Mounted(h, i) else Mounted(h, i) + "/" + rest)
    ensures ToDb(h, p) ==
      (if rest == "" then h.category + "/" + h.mounts[i].pseudoName
       else h.category + "/" + h.mounts[i].pseudoName + "/" + rest)
  {
    hide Standard, Mounted, FirstMount;
    var tail := Past(p, |Mounted(h, i)|);
    assert tail == (if rest == "" then "" else "/" + rest);
    assert StripLeft(tail) == rest by {
      if rest != "" {
        assert tail[1..] == rest;
        assert StripLeft(rest) == rest;
      }
    }
  }

  lemma NormalIsStandard(p: string)
    requires Normal(p)
    ensures Standard(p) == p
  {
  }

  lemma RestIsPlain(p: string, rest: string)
    requires NoBackslash(p) && |rest| <= |p| && rest == p[|p| - |rest|..] && Irreducible(true, Split(rest))
    ensures PlainNames(Split(rest))
  {
    hide Split;
    forall k | 0 <= k < |Split(rest)| ensures NoBackslash(Split(rest)[k]) {
      if '\\' in Split(rest)[k] {
        SplitChars(rest, Split(rest)[k], '\\');
      }
    }
  }

  /** A root holds no path but itself. */
  lemma RootHoldsOnlyItself(h: Handler, i: nat, p: string)
    requires WellMounted(h) && i < |h.mounts| && !BelowRoot(h, i) && Normal(p) && Fits(h, p)
    ensures Under(p, Mounted(h, i)) ==> p == Mounted(h, i)
  {
    assert !NoRoots(h) && SingleSlashes(h);
    assert Mounted(h, i) == "/" by { RootIsSlash(h, i); }
    hide Mounted, NormPath, Reduced, WellMounted;
    if Under(p, "/") && p != "/" {
      assert "/" + "/" == "//" && p[0] == '/' && p[1] == '/';
      TwoSlashes(p);
    }
  }

  lemma RootIsSlash(h: Handler, i: nat)
    requires WellMounted(h) && i < |h.mounts| && !BelowRoot(h, i) && SingleSlashes(h)
    ensures Mounted(h, i) == "/"
  {
    assert MountOk(h, i);
    hide Mounted;
  }

  lemma TwoSlashes(p: string)
    requires NormPath(p) == p && |p| >= 2 && p[0] == '/' && p[1] == '/'
    ensures Slashes(p) == 2
  {
    NormPathReads(p);
    if Reduced(p) != [] {
      JoinHead(Reduced(p));
      assert Join(Reduced(p))[0] != '/';
      assert p == Root(Slashes(p)) + Join(Reduced(p));
    }
  }

  /** A path under a mount is one of that mount's physical paths, and converts to the matching logical one. */
  lemma UnderMount(h: Handler, p: string, i: nat) returns (relative: seq<string>)
    requires WellMounted(h) && Normal(p) && FirstMount(h, p, 0) == Some(i) && !(h.category + "/" <= p)
    requires Fits(h, p)
    ensures PlainNames(relative) && p == Physical(h, i, relative)
    ensures ToDb(h, p) == Logical(h, i, relative)
  {
    hide Join, Split, Standard, NormPath, Mounted, FindMount, FirstMount, WellMounted, Irreducible, PlainName,
         ToDb, Logical, Reduced, NoBackslash, PosixJoin, BelowRoot, Fits;
    var m := Mounted(h, i);
    FirstMountFinds(h, p, 0);
    NormalIsStandard(p);
    if !BelowRoot(h, i) {
      RootHoldsOnlyItself(h, i, p);
    }
    if p == m {
      relative := [];
      ToDbReads(h, p, i, "");
    } else {
      var rest := p[|m| + 1..];
      assert p == m + "/" + rest;
      MountFacts(h, i);
      NormalRest(m, rest);
      RestIsPlain(p, rest);
      relative := Split(rest);
      PlainJoin(relative);
      JoinPlain(m, rest);
      ToDbReads(h, p, i, rest);
    }
    LogicalText(h, i, relative);
  }

  lemma SplitParts(rest: string) returns (relative: seq<string>)
    requires PlainNames(Split(rest)) && Join(Split(rest)) == rest
    ensures PlainNames(relative)
    ensures Split(rest) == [Before(rest)] + relative
    ensures rest == (if relative == [] then Before(rest) else Before(rest) + "/" + Join(relative))
  {
    hide Split, Join, Before, After;
    var parts := Split(rest);
    relative := parts[1..];
    assert parts == [parts[0]] + relative;
    assert NoSlash(parts[0]) by { assert PlainName(parts[0]); }
    hide PlainNames, NoSlash;
    if relative == [] {
      assert parts == [parts[0]];
      JoinOne(parts[0]);
      Partition(parts[0], "");
    } else {
      assert rest == Join([parts[0]] + relative);
      JoinConcat([parts[0]], relative);
      JoinOne(parts[0]);
      Partition(parts[0], Join(relative));
    }
  }

  lemma JoinOne(c: string)
    ensures Join([c]) == c
  {
  }

  /** A normal logical path under a configured pseudo name is that mount's logical path. */
  lemma UnderPseudoName(h: Handler, p: string, i: nat) returns (relative: seq<string>)
    requires WellMounted(h) && Normal(p) && h.category + "/" <= p
    requires FindMount(h, Before(p[|h.category| + 1..]), 0) == Some(i)
    ensures PlainNames(relative) && p == Logical(h, i, relative)
  {
    hide Join, Split, Standard, NormPath, FindMount, WellMounted, Before, After, Irreducible, PlainName, Name,
         Logical, NoBackslash, PlainNames;
    var rest := p[|h.category| + 1..];
    assert p == h.category + "/" + rest;
    CategoryFacts(h);
    NormalRelative(h.category, rest);
    RestIsPlain(p, rest);
    relative := SplitParts(rest);
    LogicalText(h, i, relative);
  }

  // ---------------------------------------------------------------- round trips

  /** A mount holds the files joined under it, exactly when it is not a bare root. */
  lemma MountHoldsItsFile(h: Handler, i: nat, relative: seq<string>)
    requires WellMounted(h) && i < |h.mounts| && PlainNames(relative)
    ensures Under(Physical(h, i, relative), Mounted(h, i)) <==> relative == [] || BelowRoot(h, i)
  {
    hide Mounted, WellMounted, PlainNames, Normal, Join, PosixJoin, BelowRoot, Standard, Fits;
    if relative != [] {
      PhysicalText(h, i, relative);
      PlainJoin(relative);
      if BelowRoot(h, i) {
        BelowRootJoined(h, i, relative);
      } else {
        RootHoldsOnlyItself(h, i, Physical(h, i, relative));
        JoinIsLonger(Mounted(h, i), Join(relative));
      }
    }
  }

  lemma JoinIsLonger(a: string, b: string)
    requires b != "" && b[0] != '/'
    ensures PosixJoin(a, b) != a
  {
    assert |PosixJoin(a, b)| > |a|;
  }

  /** So a mount finds every file under it if and only if it is not a bare root. */
  lemma MountFindsItsFilesIff(h: Handler, i: nat)
    requires WellMounted(h) && i < |h.mounts|
    ensures (forall relative :: PlainNames(relative) ==> Under(Physical(h, i, relative), Mounted(h, i)))
            <==> BelowRoot(h, i)
  {
    hide Mounted, WellMounted, Physical, BelowRoot, PlainNames, Under;
    forall relative | PlainNames(relative)
      ensures Under(Physical(h, i, relative), Mounted(h, i)) <==> relative == [] || BelowRoot(h, i)
    {
      MountHoldsItsFile(h, i, relative);
    }
    assert PlainNames(["a"]) by { OnePlainName(); }
  }

  lemma OnePlainName()
    ensures PlainNames(["a"])
  {
  }

  lemma ToDbOutside(h: Handler, p: string)
    requires Standard(p) == p && FirstMount(h, p, 0).None?
    ensures ToDb(h, p) == p
  {
  }

  lemma FirstMountIs(h: Handler, p: string, i: nat)
    requires i < |h.mounts|
    ensures FirstMount(h, p, 0) == Some(i) <==>
      Under(p, Mounted(h, i)) && forall j :: 0 <= j < i ==> !Under(p, Mounted(h, j))
  {
    hide *;
    FirstMountFinds(h, p, 0);
    var first := FirstMount(h, p, 0);
    assert first.Some? && first.value < i ==> Under(p, Mounted(h, first.value));
  }

  lemma WhichMount(h: Handler, i: nat, relative: seq<string>) returns (first: Option<nat>, relative': seq<string>)
    requires WellMounted(h) && i < |h.mounts| && PlainNames(relative)
    ensures first.Some? ==>
      && first.value < |h.mounts| && PlainNames(relative')
      && Physical(h, i, relative) == Physical(h, first.value, relative')
      && ToDb(h, Physical(h, i, relative)) == Logical(h, first.value, relative')
    ensures first.None? ==> ToDb(h, Physical(h, i, relative)) == Physical(h, i, relative)
    ensures first == Some(i) <==>
      (relative == [] || BelowRoot(h, i)) && forall j :: 0 <= j < i ==> !Under(Physical(h, i, relative), Mounted(h, j))
  {
    MountHoldsItsFile(h, i, relative);
    PhysicalText(h, i, relative);
    var p := Physical(h, i, relative);
    FirstMountIs(h, p, i);
    first := FirstMount(h, p, 0);
    hide *;
    relative' := [];
    if first.Some? {
      relative' := UnderMount(h, p, first.value);
    } else {
      ToDbOutside(h, p);
    }
  }

  lemma LogicalInjective(h: Handler, i: nat, a: seq<string>, j: nat, b: seq<string>)
    requires WellMounted(h) && i < |h.mounts| && j < |h.mounts| && PlainNames(a) && PlainNames(b)
    requires Logical(h, i, a) == Logical(h, j, b)
    ensures i == j && a == b
  {
    hide WellMounted, PlainNames, PlainName, Logical, Standard, Join, Split, FindMount;
    LogicalText(h, i, a);
    LogicalText(h, j, b);
    PseudoFacts(h, i);
    PseudoFacts(h, j);
    var p, q := [h.category, h.mounts[i].pseudoName] + a, [h.category, h.mounts[j].pseudoName] + b;
    assert p[1] == q[1] && p[2..] == a && q[2..] == b;
  }

  /** There and back from a logical path, exactly when its mount holds the file and no earlier one does. */
  lemma DbOfFsIff(h: Handler, i: nat, relative: seq<string>)
    requires WellMounted(h) && i < |h.mounts| && PlainNames(relative)
    ensures ToDb(h, ToFs(h, Logical(h, i, relative))) == Logical(h, i, relative) <==>
      (relative == [] || BelowRoot(h, i)) && forall j :: 0 <= j < i ==> !Under(Physical(h, i, relative), Mounted(h, j))
  {
    hide WellMounted, PlainNames, ToDb, ToFs, Logical, Physical, Under, Mounted, BelowRoot, Normal, Standard;
    LogicalToPhysical(h, i, relative);
    var first, relative' := WhichMount(h, i, relative);
    if first == Some(i) {
      PhysicalInjective(h, i, relative, relative');
    } else if first.Some? {
      if Logical(h, i, relative) == Logical(h, first.value, relative') {
        LogicalInjective(h, i, relative, first.value, relative');
      }
    } else {
      PhysicalText(h, i, relative);
      LogicalText(h, i, relative);
    }
  }

  lemma PhysicalInjective(h: Handler, i: nat, a: seq<string>, b: seq<string>)
    requires i < |h.mounts| && PlainNames(a) && PlainNames(b)
    requires Physical(h, i, a) == Physical(h, i, b)
    ensures a == b
  {
    hide Mounted, Join, Split, PlainNames, Standard, Normal, PosixJoin;
    var m := Mounted(h, i);
    if a != [] {
      PlainJoin(a);
      JoinIsLonger(m, Join(a));
    }
    if b != [] {
      PlainJoin(b);
      JoinIsLonger(m, Join(b));
    }
    if a != [] && b != [] {
      JoinInjective(m, Join(a), Join(b));
    }
  }

  lemma JoinInjective(m: string, a: string, b: string)
    requires a != "" && a[0] != '/' && b != "" && b[0] != '/' && PosixJoin(m, a) == PosixJoin(m, b)
    ensures a == b
  {
    var k := if m == "" || m[|m| - 1] == '/' then |m| else |m| + 1;
    assert PosixJoin(m, a)[k..] == a && PosixJoin(m, b)[k..] == b;
  }

  /** There and back from any normal absolute path, mounted or not. */
  lemma FsOfDb(h: Handler, p: string)
    requires WellMounted(h) && Normal(p) && "/" <= p && Fits(h, p)
    ensures ToFs(h, ToDb(h, p)) == p
  {
    NormalIsStandard(p);
    CategoryFacts(h);
    assert !(h.category + "/" <= p) by { assert (h.category + "/")[0] != p[0]; }
    match FirstMount(h, p, 0)
    case None =>
    case Some(i) =>
      hide *;
      var relative := UnderMount(h, p, i);
      LogicalToPhysical(h, i, relative);
  }

  lemma StandardIsNormal(path: string)
    requires NoBackslash(path)
    ensures Normal(Standard(path)) && Standard(Standard(path)) == Standard(path)
  {
    NormPathKeepsNoBackslash(path);
    NormPathIdempotent(path);
  }

  lemma StandardFits(h: Handler, path: string)
    requires NoBackslash(path) && Fits(h, path)
    ensures Fits(h, Standard(path))
  {
    NormPathKeepsNoBackslash(path);
    NormPathReads(path);
    hide NormPath, Slashes, NoRoots, BelowRoot, Mounted, Reduced;
  }

  /** Converting twice converts once, whatever the text. */
  lemma ToDbIdempotent(h: Handler, path: string)
    requires WellMounted(h) && NoBackslash(path) && Fits(h, path)
    ensures ToDb(h, ToDb(h, path)) == ToDb(h, path)
  {
    hide Standard, Normal, WellMounted, NoBackslash, Mounted, Logical, Physical, PlainNames;
    StandardIsNormal(path);
    StandardFits(h, path);
    var p := Standard(path);
    assert ToDb(h, path) == ToDb(h, p);
    if !(h.category + "/" <= p) && FirstMount(h, p, 0).Some? {
      var i := FirstMount(h, p, 0).value;
      var relative := UnderMount(h, p, i);
      LogicalText(h, i, relative);
    }
  }

  lemma ToFsIdempotent(h: Handler, path: string)
    requires WellMounted(h) && NoBackslash(path)
    ensures ToFs(h, ToFs(h, path)) == ToFs(h, path)
  {
    hide Standard, Normal, WellMounted, NoBackslash, Mounted, Logical, Physical, PlainNames, Before, After, Base,
         PosixJoin, FindMount;
    StandardIsNormal(path);
    var p := Standard(path);
    assert ToFs(h, path) == ToFs(h, p);
    if h.category + "/" <= p && FindMount(h, Before(p[|h.category| + 1..]), 0).Some? {
      var i := FindMount(h, Before(p[|h.category| + 1..]), 0).value;
      var relative := UnderPseudoName(h, p, i);
      LogicalToPhysical(h, i, relative);
      PhysicalText(h, i, relative);
    }
  }

  /** A mount that is the root itself holds every file, and no file is found under it, whatever the other mounts. */
  lemma RootMountFindsNothing(h: Handler, i: nat, p: string)
    requires WellMounted(h) && i < |h.mounts| && !BelowRoot(h, i)
    requires Normal(p) && Fits(h, p) && p != Mounted(h, i)
    ensures FirstMount(h, p, 0) != Some(i)
    ensures (forall j :: 0 <= j < |h.mounts| ==> Mounted(h, j) == Mounted(h, i)) ==> ToDb(h, p) == p
  {
    NormalIsStandard(p);
    RootHoldsOnlyItself(h, i, p);
    hide Standard, Mounted, NormPath, WellMounted, BelowRoot, Fits, Under;
    FirstMountFinds(h, p, 0);
  }
}
