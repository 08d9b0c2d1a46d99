/** Slash-separated path text: splitting, joining, and the normal form of a POSIX path. */
module PathText {
  predicate NoSlash(s: string) {
    '/' !in s
  }

  predicate NoBackslash(s: string) {
    '\\' !in s
  }

  predicate AllWords(cs: seq<string>) {
    forall i :: 0 <= i < |cs| ==> NoSlash(cs[i])
  }

  /** One more character of the text: a slash opens a new part, anything else extends the last one. */
  function Extend(cs: seq<string>, c: char): (r: seq<string>)
    requires cs != []
    ensures r != []
  {
    if c == '/' then cs + [""] else cs[..|cs| - 1] + [cs[|cs| - 1] + [c]]
  }

  function Split(s: string): (cs: seq<string>)
    ensures cs != []
  {
    if s == "" then [""] else Extend(Split(s[..|s| - 1]), s[|s| - 1])
  }

  function Join(cs: seq<string>): string
    requires cs != []
  {
    if |cs| == 1 then cs[0] else Join(cs[..|cs| - 1]) + "/" + cs[|cs| - 1]
  }

  lemma ExtendAfter(a: seq<string>, b: seq<string>, c: char)
    requires b != []
    ensures Extend(a + b, c) == a + Extend(b, c)
  {
    assert (a + b)[..|a + b| - 1] == a + b[..|b| - 1];
  }

  lemma {:induction false} SplitConcat(a: string, b: string)
    ensures Split(a + "/" + b) == Split(a) + Split(b)
    decreases |b|
  {
    if b == "" {
      SplitStep(a, '/');
      assert a + "/" + b == a + ['/'];
      assert Split("") == [""];
    } else {
      var b', c := b[..|b| - 1], b[|b| - 1];
      LastApart(a, b);
      SplitStep(a + "/" + b', c);
      SplitStep(b', c);
      SplitConcat(a, b');
      ExtendAfter(Split(a), Split(b'), c);
      hide *;
    }
  }

  lemma LastApart(a: string, b: string)
    requires b != ""
    ensures b == b[..|b| - 1] + [b[|b| - 1]]
    ensures a + "/" + b == (a + "/" + b[..|b| - 1]) + [b[|b| - 1]]
  {
  }

  lemma SplitStep(s: string, c: char)
    ensures Split(s + [c]) == Extend(Split(s), c)
  {
    assert (s + [c])[..|s|] == s;
  }

  lemma {:induction false} SplitWord(w: string)
    requires NoSlash(w)
    ensures Split(w) == [w]
  {
    hide *;
    if w == "" {
      SplitNothing();
    } else {
      WordEnds(w);
      var front, last := w[..|w| - 1], w[|w| - 1];
      SplitWord(front);
      SplitStep(front, last);
      ExtendWord(front, last);
    }
  }

  lemma SplitNothing()
    ensures Split("") == [""]
  {
  }

  lemma WordEnds(w: string)
    requires NoSlash(w) && w != ""
    ensures var front, last := w[..|w| - 1], w[|w| - 1]; NoSlash(front) && last != '/' && w == front + [last]
  {
  }

  lemma ExtendWord(w: string, c: char)
    requires c != '/'
    ensures Extend([w], c) == [w + [c]]
  {
  }

  lemma {:induction false} SplitJoin(cs: seq<string>)
    requires cs != [] && AllWords(cs)
    ensures Split(Join(cs)) == cs
  {
    if |cs| == 1 {
      SplitWord(cs[0]);
    } else {
      var front := cs[..|cs| - 1];
      SplitJoin(front);
      SplitWord(cs[|cs| - 1]);
      SplitConcat(Join(front), cs[|cs| - 1]);
    }
  }

  lemma JoinExtend(cs: seq<string>, c: char)
    requires cs != [] && AllWords(cs)
    ensures Join(Extend(cs, c)) == Join(cs) + [c] && AllWords(Extend(cs, c))
  {
    var r := Extend(cs, c);
    if c == '/' {
      assert r[..|r| - 1] == cs;
    } else {
      assert r[..|r| - 1] == cs[..|cs| - 1];
      assert NoSlash(cs[|cs| - 1] + [c]);
    }
  }

  lemma {:induction false} JoinSplit(s: string)
    ensures Join(Split(s)) == s && AllWords(Split(s))
  {
    if s != "" {
      JoinSplit(s[..|s| - 1]);
      JoinExtend(Split(s[..|s| - 1]), s[|s| - 1]);
      assert s[..|s| - 1] + [s[|s| - 1]] == s;
    }
  }

  lemma {:induction false} JoinConcat(a: seq<string>, b: seq<string>)
    requires a != [] && b != []
    ensures Join(a + b) == Join(a) + "/" + Join(b)
    decreases |b|
  {
    if |b| == 1 {
      assert (a + b)[..|a|] == a;
    } else {
      JoinConcat(a, b[..|b| - 1]);
      assert (a + b)[..|a + b| - 1] == a + b[..|b| - 1];
    }
  }

  lemma {:induction false} SplitChars(s: string, c: string, x: char)
    requires c in Split(s) && x in c
    ensures x in s
    decreases |s|
  {
    if s != "" {
      var front := Split(s[..|s| - 1]);
      if c in front {
        SplitChars(s[..|s| - 1], c, x);
      } else if s[|s| - 1] != '/' {
        var last := front[|front| - 1];
        assert c == last + [s[|s| - 1]];
        if x in last {
          SplitChars(s[..|s| - 1], last, x);
        }
      }
    }
  }

  lemma {:induction false} JoinChars(cs: seq<string>, x: char)
    requires cs != [] && x in Join(cs) && x != '/'
    ensures exists i :: 0 <= i < |cs| && x in cs[i]
  {
    if |cs| > 1 && x !in cs[|cs| - 1] {
      JoinChars(cs[..|cs| - 1], x);
      var i :| 0 <= i < |cs| - 1 && x in cs[..|cs| - 1][i];
      assert x in cs[i];
    }
  }

  // ---------------------------------------------------------------- os.path.join and os.path.normpath

  function PosixJoin(a: string, b: string): string {
    if "/" <= b then b
    else if a == "" || a[|a| - 1] == '/' then a + b
    else a + "/" + b
  }

  function Push(rooted: bool, done: seq<string>, c: string): seq<string> {
    if c == "" || c == "." then done
    else if c != ".." || (!rooted && done == []) || (done != [] && done[|done| - 1] == "..") then done + [c]
    else if done != [] then done[..|done| - 1]
    else done
  }

  function Reduce(rooted: bool, cs: seq<string>): seq<string> {
    if cs == [] then [] else Push(rooted, Reduce(rooted, cs[..|cs| - 1]), cs[|cs| - 1])
  }

  /** Two leading slashes mean something of their own; three or more mean one. */
  function Slashes(s: string): nat {
    if s == "" || s[0] != '/' then 0
    else if |s| >= 2 && s[1] == '/' && !(|s| >= 3 && s[2] == '/') then 2
    else 1
  }

  function Root(slashes: nat): string {
    if slashes == 0 then "" else if slashes == 1 then "/" else "//"
  }

  /** The parts of a normal form, joined. */
  function Body(cs: seq<string>): string {
    if cs == [] then "" else Join(cs)
  }

  function Render(slashes: nat, cs: seq<string>): string
    requires slashes <= 2
  {
    var text := Root(slashes) + Body(cs);
    if text == "" then "." else text
  }

  function Reduced(s: string): seq<string> {
    Reduce(Slashes(s) > 0, Split(s))
  }

  function NormPath(s: string): string {
    Render(Slashes(s), Reduced(s))
  }

  /** Proper names: what a path is made of once empty parts, `.` and resolvable `..` are gone. */
  predicate Name(c: string) {
    NoSlash(c) && c != "" && c != "."
  }

  predicate Irreducible(rooted: bool, cs: seq<string>) {
    forall i :: 0 <= i < |cs| ==>
      Name(cs[i]) && (cs[i] == ".." ==> !rooted && forall j :: 0 <= j < i ==> cs[j] == "..")
  }

  lemma {:induction false} ReduceGivesIrreducible(rooted: bool, cs: seq<string>)
    requires AllWords(cs)
    ensures Irreducible(rooted, Reduce(rooted, cs))
  {
    if cs != [] {
      ReduceGivesIrreducible(rooted, cs[..|cs| - 1]);
    }
  }

  lemma {:induction false} ReduceKeepsIrreducible(rooted: bool, cs: seq<string>)
    requires Irreducible(rooted, cs)
    ensures Reduce(rooted, cs) == cs
  {
    if cs != [] {
      var front := cs[..|cs| - 1];
      ReduceKeepsIrreducible(rooted, front);
      if cs[|cs| - 1] == ".." && front != [] {
        assert front[|front| - 1] == "..";
      }
    }
  }

  lemma {:induction false} ReduceSkipsEmpty(rooted: bool, cs: seq<string>)
    ensures Reduce(rooted, [""] + cs) == Reduce(rooted, cs)
  {
    if cs != [] {
      ReduceSkipsEmpty(rooted, cs[..|cs| - 1]);
      assert ([""] + cs)[..|cs|] == [""] + cs[..|cs| - 1];
    } else {
      assert [""] + cs == [""];
    }
  }

  /** Names go through untouched: none of them is `..`. */
  lemma {:induction false} ReduceAppendsNames(rooted: bool, cs: seq<string>, names: seq<string>)
    requires Irreducible(true, names)
    ensures Reduce(rooted, cs + names) == Reduce(rooted, cs) + names
    decreases |names|
  {
    if names == [] {
      assert cs + names == cs;
    } else {
      ReduceAppendsNames(rooted, cs, names[..|names| - 1]);
      assert (cs + names)[..|cs + names| - 1] == cs + names[..|names| - 1];
    }
  }

  lemma SplitAfterSlash(s: string, rooted: bool)
    ensures Split("/" + s) == [""] + Split(s)
    ensures Reduce(rooted, Split("/" + s)) == Reduce(rooted, Split(s))
  {
    SplitConcat("", s);
    assert "" + "/" + s == "/" + s;
    ReduceSkipsEmpty(rooted, Split(s));
  }

  lemma RootReads(slashes: nat, body: string)
    requires slashes <= 2 && (body == "" || body[0] != '/')
    ensures Slashes(Root(slashes) + body) == slashes
    ensures Reduce(slashes > 0, Split(Root(slashes) + body)) == Reduce(slashes > 0, Split(body))
  {
    hide Reduce, Split;
    if slashes == 0 {
      assert Root(slashes) + body == body;
    } else {
      SplitAfterSlash(body, true);
      SplitAfterSlash("/" + body, true);
      assert "/" + ("/" + body) == "//" + body;
    }
  }

  lemma BodyReads(rooted: bool, cs: seq<string>)
    requires Irreducible(rooted, cs)
    ensures Reduce(rooted, Split(Body(cs))) == cs
    ensures (Body(cs) == "" || Body(cs)[0] != '/') && (Body(cs) == "" ==> cs == [])
  {
    ReduceKeepsIrreducible(rooted, cs);
    if cs == [] {
      assert Split("") == [""] && Reduce(rooted, [""]) == [];
    } else {
      JoinHead(cs);
      SplitJoin(cs);
    }
  }

  lemma ReducedIs(s: string)
    ensures Reduced(s) == Reduce(Slashes(s) > 0, Split(s))
  {
  }

  /** A normal form read again: the same slashes, the same parts. */
  lemma RenderReads(slashes: nat, cs: seq<string>)
    requires slashes <= 2 && Irreducible(slashes > 0, cs)
    ensures Slashes(Render(slashes, cs)) == slashes && Reduced(Render(slashes, cs)) == cs
  {
    hide *;
    var body := Body(cs);
    BodyReads(slashes > 0, cs);
    RenderIs(slashes, cs);
    RootReads(slashes, body);
    RootEmpty(slashes, body);
    ReduceDot();
    SlashesOfDot();
    ReducedIs(Render(slashes, cs));
  }

  lemma RenderIs(slashes: nat, cs: seq<string>)
    requires slashes <= 2
    ensures Render(slashes, cs) == if Root(slashes) + Body(cs) == "" then "." else Root(slashes) + Body(cs)
  {
  }

  lemma RootEmpty(slashes: nat, body: string)
    ensures Root(slashes) + body == "" <==> slashes == 0 && body == ""
  {
  }

  lemma SlashesOfDot()
    ensures Slashes(".") == 0
  {
  }

  lemma ReduceDot()
    ensures Reduce(false, Split(".")) == []
  {
    SplitWord(".");
    assert Reduce(false, ["."]) == Push(false, Reduce(false, []), ".");
  }

  lemma {:induction false} JoinHead(cs: seq<string>)
    requires cs != [] && cs[0] != ""
    ensures Join(cs) != "" && Join(cs)[0] == cs[0][0]
  {
    if |cs| > 1 {
      JoinHead(cs[..|cs| - 1]);
    }
  }

  lemma NormPathReads(s: string)
    ensures Slashes(NormPath(s)) == Slashes(s) && Reduced(NormPath(s)) == Reduced(s)
    ensures Irreducible(Slashes(s) > 0, Reduced(s))
  {
    JoinSplit(s);
    ReduceGivesIrreducible(Slashes(s) > 0, Split(s));
    RenderReads(Slashes(s), Reduced(s));
  }

  /** Normalising twice is normalising once. */
  lemma NormPathIdempotent(s: string)
    ensures NormPath(NormPath(s)) == NormPath(s)
  {
    NormPathReads(s);
  }

  /** Normalising brings in no backslash. */
  lemma NormPathKeepsNoBackslash(s: string)
    requires NoBackslash(s)
    ensures NoBackslash(NormPath(s))
  {
    if '\\' in NormPath(s) {
      JoinChars(Reduced(s), '\\');
      var i :| 0 <= i < |Reduced(s)| && '\\' in Reduced(s)[i];
      ReducePicks(Slashes(s) > 0, Split(s), Reduced(s)[i]);
      SplitChars(s, Reduced(s)[i], '\\');
    }
  }

  lemma {:induction false} ReducePicks(rooted: bool, cs: seq<string>, c: string)
    requires c in Reduce(rooted, cs)
    ensures c in cs
  {
    var front := cs[..|cs| - 1];
    if c in Reduce(rooted, front) {
      ReducePicks(rooted, front, c);
    }
  }

  /** A slash at the end of the base changes nothing. */
  lemma ReducedBase(base: string, b: string)
    requires base == b || base == b + "/"
    ensures Reduce(Slashes(base) > 0, Split(b)) == Reduced(base)
  {
    if base != b {
      assert base[..|base| - 1] == b;
      assert Split(base) == Split(b) + [""];
      assert Split(base)[..|Split(b)|] == Split(b);
    }
  }

  lemma SlashesOfJoin(base: string, b: string, text: string)
    requires base != "" && (if base[|base| - 1] == '/' then base == b + "/" else base == b)
    requires text != "" && text[0] != '/'
    ensures Slashes(b + "/" + text) == Slashes(base)
  {
    var joined := b + "/" + text;
    assert joined[|b| + 1] == text[0];
    assert forall i :: 0 <= i < |base| ==> joined[i] == base[i];
  }

  lemma RenderAppend(slashes: nat, cs: seq<string>, names: seq<string>)
    requires slashes <= 2 && cs != [] && cs[0] != "" && names != []
    ensures Render(slashes, cs + names) == Render(slashes, cs) + "/" + Join(names)
  {
    BodyAppend(cs, names);
    hide Join, Body, Root;
    RenderIs(slashes, cs);
    RenderIs(slashes, cs + names);
    RootEmpty(slashes, Body(cs));
    RootEmpty(slashes, Body(cs + names));
    assert Root(slashes) + (Body(cs) + "/" + Join(names)) == (Root(slashes) + Body(cs)) + "/" + Join(names);
  }

  lemma BodyAppend(cs: seq<string>, names: seq<string>)
    requires cs != [] && cs[0] != "" && names != []
    ensures Body(cs + names) == Body(cs) + "/" + Join(names) && Body(cs) != ""
  {
    JoinHead(cs);
    JoinConcat(cs, names);
  }

  lemma WithoutLastSlash(base: string) returns (b: string)
    requires base != ""
    ensures if base[|base| - 1] == '/' then base == b + "/" else base == b
  {
    b := if base[|base| - 1] == '/' then base[..|base| - 1] else base;
  }

  lemma FirstIsNotEmpty(rooted: bool, cs: seq<string>)
    requires Irreducible(rooted, cs) && cs != []
    ensures cs[0] != ""
  {
  }

  // ---------------------------------------------------------------- where a path leads

  /** One part on: `..` goes up, and the root is its own parent. */
  function GoOn(at: seq<string>, c: string): seq<string> {
    if c == "" || c == "." then at
    else if c != ".." then at + [c]
    else if at == [] then [] else at[..|at| - 1]
  }

  /** From a place in the tree, part by part. */
  function Walk(at: seq<string>, cs: seq<string>): seq<string> {
    if cs == [] then at else GoOn(Walk(at, cs[..|cs| - 1]), cs[|cs| - 1])
  }

  /** Where the text of a path leads from there. */
  function Leads(at: seq<string>, s: string): seq<string> {
    Walk(if "/" <= s then [] else at, Split(s))
  }

  lemma WalkOn(at: seq<string>, cs: seq<string>, c: string)
    ensures Walk(at, cs + [c]) == GoOn(Walk(at, cs), c)
  {
    assert (cs + [c])[..|cs|] == cs;
  }

  predicate AllProper(cs: seq<string>) {
    forall i :: 0 <= i < |cs| ==> cs[i] != "" && cs[i] != "."
  }

  lemma WalkEnds(at: seq<string>, cs: seq<string>)
    ensures Walk(at, cs) == if cs == [] then at else GoOn(Walk(at, cs[..|cs| - 1]), cs[|cs| - 1])
  {
  }

  lemma ThereAndBack(at: seq<string>, c: string)
    requires c != "" && c != "." && c != ".."
    ensures GoOn(GoOn(at, c), "..") == at
  {
    assert (at + [c])[..|at|] == at;
  }

  lemma PushKeepsProper(rooted: bool, done: seq<string>, c: string)
    requires AllProper(done)
    ensures AllProper(Push(rooted, done, c))
  {
  }

  lemma PushWalks(rooted: bool, done: seq<string>, c: string, at: seq<string>)
    requires (rooted ==> at == []) && AllProper(done)
    ensures Walk(at, Push(rooted, done, c)) == GoOn(Walk(at, done), c)
  {
    hide Walk;
    WalkOn(at, done, c);
    WalkEnds(at, done);
    if done != [] && c == ".." && done[|done| - 1] != ".." {
      hide GoOn;
      ThereAndBack(Walk(at, done[..|done| - 1]), done[|done| - 1]);
    }
  }

  lemma {:induction false} ReduceWalks(rooted: bool, cs: seq<string>, at: seq<string>)
    requires rooted ==> at == []
    ensures Walk(at, Reduce(rooted, cs)) == Walk(at, cs) && AllProper(Reduce(rooted, cs))
  {
    if cs != [] {
      ReduceWalks(rooted, cs[..|cs| - 1], at);
      hide Push, GoOn, AllProper;
      PushKeepsProper(rooted, Reduce(rooted, cs[..|cs| - 1]), cs[|cs| - 1]);
      PushWalks(rooted, Reduce(rooted, cs[..|cs| - 1]), cs[|cs| - 1], at);
    }
  }

  /** The normal form leads to the same place, from everywhere, and tells apart the same kinds of roots. */
  lemma NormPathLeadsThere(s: string, at: seq<string>)
    ensures Leads(at, NormPath(s)) == Leads(at, s)
    ensures "/" <= NormPath(s) <==> "/" <= s
    ensures ("//" <= NormPath(s) && !("///" <= NormPath(s))) <==> ("//" <= s && !("///" <= s))
  {
    NormPathReads(s);
    SlashesAre(s);
    SlashesAre(NormPath(s));
    var from := if "/" <= s then [] else at;
    ReduceWalks("/" <= s, Split(s), from);
    ReduceWalks("/" <= s, Split(NormPath(s)), from);
    ReducedIs(s);
    ReducedIs(NormPath(s));
    hide *;
  }

  lemma SlashesAre(s: string)
    ensures Slashes(s) > 0 <==> "/" <= s
    ensures Slashes(s) == 2 <==> "//" <= s && !("///" <= s)
  {
  }

  lemma {:induction false} WalkConcat(at: seq<string>, a: seq<string>, b: seq<string>)
    ensures Walk(at, a + b) == Walk(Walk(at, a), b)
    decreases |b|
  {
    if b == [] {
      assert a + b == a;
    } else {
      assert (a + b)[..|a + b| - 1] == a + b[..|b| - 1];
      WalkConcat(at, a, b[..|b| - 1]);
    }
  }

  /** A joined path leads where the second leads from where the first does. */
  lemma PosixJoinLeads(a: string, b: string, at: seq<string>)
    ensures Leads(at, PosixJoin(a, b)) == Leads(Leads(at, a), b)
  {
    if !("/" <= b) {
      if a == "" {
        assert a + b == b && Split("") == [""];
        assert Walk(at, [""]) == Walk(at, [""][..0]) == at;
      } else {
        var stem := WithoutLastSlash(a);
        assert PosixJoin(a, b) == stem + "/" + b;
        SplitConcat(stem, b);
        hide Split, PosixJoin;
        var from := if "/" <= a then [] else at;
        WalkConcat(from, Split(stem), Split(b));
        JoinedStem(a, stem, from);
        assert "/" <= stem + "/" + b <==> "/" <= a by { assert (stem + "/" + b)[0] == a[0]; }
      }
    }
  }

  lemma JoinedStem(a: string, stem: string, from: seq<string>)
    requires a == stem || a == stem + "/"
    ensures Walk(from, Split(a)) == Walk(from, Split(stem))
  {
    if a != stem {
      SplitConcat(stem, "");
      assert stem + "/" + "" == a && Split("") == [""];
      WalkConcat(from, Split(stem), [""]);
      assert Walk(Walk(from, Split(stem)), [""]) == Walk(Walk(from, Split(stem)), [""][..0]);
    }
  }

  /** Names appended to a base are appended to its normal form, unless that is only a root or a dot. */
  lemma NormPathOfJoin(base: string, names: seq<string>)
    requires names != [] && Irreducible(true, names) && Reduced(base) != []
    ensures NormPath(PosixJoin(base, Join(names))) == NormPath(base) + "/" + Join(names)
  {
    hide Split, Reduce, Join, Irreducible, Render, NormPath, PosixJoin, Reduced, Body, Root;
    BaseNotEmpty(base);
    NormPathReads(base);
    var b := WithoutLastSlash(base);
    ReducedOfJoin(base, b, names);
    FirstIsNotEmpty(Slashes(base) > 0, Reduced(base));
    RenderAppend(Slashes(base), Reduced(base), names);
    NormPathIs(base);
    NormPathIs(PosixJoin(base, Join(names)));
  }

  /** The same for any absolute base, a bare root included. */
  lemma NormPathOfRootedJoin(base: string, names: seq<string>)
    requires names != [] && Irreducible(true, names) && "/" <= base
    ensures NormPath(PosixJoin(base, Join(names))) == PosixJoin(NormPath(base), Join(names))
  {
    NormPathReads(base);
    if Reduced(base) != [] {
      NormPathOfJoin(base, names);
      JoinHead(names);
      NormalEnd(NormPath(base));
      hide *;
      JoinPlain(NormPath(base), Join(names));
    } else {
      RootedJoin(base, names);
    }
  }

  lemma JoinPlain(a: string, b: string)
    requires a != "" && a[|a| - 1] != '/' && b != "" && b[0] != '/'
    ensures PosixJoin(a, b) == a + "/" + b
  {
  }

  lemma RootedJoin(base: string, names: seq<string>)
    requires names != [] && Irreducible(true, names) && "/" <= base && Reduced(base) == []
    ensures NormPath(PosixJoin(base, Join(names))) == PosixJoin(NormPath(base), Join(names))
  {
    JoinHead(names);
    var b := if base[|base| - 1] == '/' then base[..|base| - 1] else base;
    assert if base[|base| - 1] == '/' then base == b + "/" else base == b;
    ReducedOfJoin(base, b, names);
    assert [] + names == names;
    var root := NormPath(base);
    assert root == Root(Slashes(base)) && (root == "/" || root == "//");
    hide *;
    NormPathIs(PosixJoin(base, Join(names)));
    RenderNames(Slashes(base), names);
    RootJoin(root, Join(names));
  }

  lemma RenderNames(slashes: nat, names: seq<string>)
    requires names != [] && Join(names) != "" && slashes <= 2
    ensures Render(slashes, names) == Root(slashes) + Join(names)
  {
    hide Join;
  }

  lemma RootJoin(root: string, text: string)
    requires (root == "/" || root == "//") && text != "" && text[0] != '/'
    ensures PosixJoin(root, text) == root + text
  {
  }

  /** A normal path that is more than a root does not end in a slash. */
  lemma NormalEnd(m: string)
    requires NormPath(m) == m && Reduced(m) != []
    ensures m != "" && m[|m| - 1] != '/'
  {
    NormPathReads(m);
    var cs := Reduced(m);
    var last := cs[|cs| - 1];
    assert Name(last) && last[|last| - 1] != '/';
    JoinHead(cs);
    assert Join(cs)[|Join(cs)| - 1] == last[|last| - 1];
  }

  lemma BaseNotEmpty(base: string)
    requires Reduced(base) != []
    ensures base != ""
  {
    assert Split("") == [""] && Reduce(false, [""]) == [];
  }

  lemma NormPathIs(s: string)
    ensures NormPath(s) == Render(Slashes(s), Reduced(s))
  {
  }

  lemma ReducedOfJoin(base: string, b: string, names: seq<string>)
    requires base != "" && (if base[|base| - 1] == '/' then base == b + "/" else base == b)
    requires names != [] && Irreducible(true, names)
    ensures PosixJoin(base, Join(names)) == b + "/" + Join(names)
    ensures Slashes(b + "/" + Join(names)) == Slashes(base)
    ensures Reduced(b + "/" + Join(names)) == Reduced(base) + names
  {
    JoinHead(names);
    SplitJoin(names);
    hide Split, Reduce, Join, Irreducible;
    var text := Join(names);
    SplitConcat(b, text);
    ReducedBase(base, b);
    SlashesOfJoin(base, b, text);
    ReduceAppendsNames(Slashes(base) > 0, Split(b), names);
  }

  // ---------------------------------------------------------------- the text before and after the first slash

  function FirstSlash(s: string): (k: nat)
    ensures k <= |s|
    ensures k < |s| ==> s[k] == '/'
    ensures forall j :: 0 <= j < k ==> s[j] != '/'
  {
    if s == "" || s[0] == '/' then 0 else 1 + FirstSlash(s[1..])
  }

  function Before(s: string): string {
    s[..FirstSlash(s)]
  }

  function After(s: string): string {
    if FirstSlash(s) < |s| then s[FirstSlash(s) + 1..] else ""
  }

  lemma Partition(word: string, rest: string)
    requires NoSlash(word)
    ensures Before(word + "/" + rest) == word && After(word + "/" + rest) == rest
    ensures Before(word) == word && After(word) == ""
  {
    var s := word + "/" + rest;
    assert s[|word|] == '/' && forall j :: 0 <= j < |word| ==> s[j] == word[j];
    assert FirstSlash(s) == |word|;
  }

  /** The text from a position on, empty when there is none. */
  function Past(s: string, n: nat): string {
    if n <= |s| then s[n..] else ""
  }

  function StripLeft(s: string): string {
    if s != "" && s[0] == '/' then StripLeft(s[1..]) else s
  }

  function StripRight(s: string): (r: string)
    ensures r <= s
    ensures r == "" || r[|r| - 1] != '/'
  {
    if s != "" && s[|s| - 1] == '/' then StripRight(s[..|s| - 1]) else s
  }

  // ---------------------------------------------------------------- reading a normal form apart

  predicate Normal(p: string) {
    NormPath(p) == p && NoBackslash(p)
  }

  function EmptyParts(slashes: nat): seq<string> {
    if slashes == 0 then [] else if slashes == 1 then [""] else ["", ""]
  }

  lemma SplitOfRoot(slashes: nat, body: string)
    requires slashes <= 2
    ensures Split(Root(slashes) + body) == EmptyParts(slashes) + Split(body)
  {
    hide Split, Reduce;
    if slashes == 0 {
      assert Root(slashes) + body == body;
    } else {
      SplitAfterSlash(body, true);
      SplitAfterSlash("/" + body, true);
      assert "/" + ("/" + body) == "//" + body;
    }
  }

  /** A normal path is its slashes and its parts. */
  lemma NormalParts(p: string)
    requires NormPath(p) == p && (|p| > 2 || (|p| > 1 && Slashes(p) == 0))
    ensures Split(p) == EmptyParts(Slashes(p)) + Reduced(p)
    ensures Irreducible(Slashes(p) > 0, Reduced(p))
  {
    NormPathReads(p);
    if Reduced(p) != [] {
      SplitJoin(Reduced(p));
      assert p == Root(Slashes(p)) + Join(Reduced(p));
      SplitOfRoot(Slashes(p), Join(Reduced(p)));
    }
  }

  lemma SplitFromRoot(front: string)
    requires front != "" && front[0] == '/'
    ensures |Split(front)| >= 2
  {
    SplitAfterSlash(front[1..], true);
    assert "/" + front[1..] == front;
  }

  lemma SuffixIsNames(rooted: bool, empty: seq<string>, cs: seq<string>, front: seq<string>, rest: seq<string>)
    requires rooted && Irreducible(rooted, cs) && empty + cs == front + rest && |empty| <= |front|
    ensures Irreducible(true, rest)
  {
    assert forall i :: 0 <= i < |rest| ==> rest[i] == (front + rest)[|front| + i] == cs[|front| - |empty| + i];
  }

  lemma AfterNameIsNames(first: string, cs: seq<string>, rest: seq<string>)
    requires first != ".." && Irreducible(false, cs) && cs == [first] + rest
    ensures Irreducible(true, rest)
  {
    assert cs[0] == first;
    assert forall i :: 0 <= i < |rest| ==> rest[i] == cs[1 + i];
  }

  /** What follows a front in a normal absolute path is itself made of names. */
  lemma NormalRest(front: string, rest: string)
    requires |front| >= 2 && front[0] == '/' && NormPath(front + "/" + rest) == front + "/" + rest
    ensures Irreducible(true, Split(rest)) && Join(Split(rest)) == rest
  {
    var p := front + "/" + rest;
    assert p[0] == '/';
    NormalParts(p);
    SplitConcat(front, rest);
    SplitFromRoot(front);
    JoinSplit(rest);
    var rooted, cs, empty := Slashes(p) > 0, Reduced(p), EmptyParts(Slashes(p));
    assert rooted && |empty| <= 2;
    hide *;
    SuffixIsNames(rooted, empty, cs, Split(front), Split(rest));
  }

  /** A normal path whose first part is a name other than `..` is made of names. */
  lemma NormalRelative(first: string, rest: string)
    requires Name(first) && first != ".." && NormPath(first + "/" + rest) == first + "/" + rest
    ensures Irreducible(true, Split(rest)) && Join(Split(rest)) == rest
  {
    var p := first + "/" + rest;
    assert p[0] == first[0] && Slashes(p) == 0;
    NormalParts(p);
    SplitConcat(first, rest);
    SplitWord(first);
    JoinSplit(rest);
    var cs := Reduced(p);
    assert EmptyParts(0) + cs == cs;
    hide *;
    AfterNameIsNames(first, cs, Split(rest));
  }

  /** Names joined are already normal. */
  lemma NamesAreNormal(names: seq<string>)
    requires names != [] && Irreducible(true, names)
    ensures NormPath(Join(names)) == Join(names)
  {
    JoinHead(names);
    SplitJoin(names);
    ReduceKeepsIrreducible(false, names);
  }
}
