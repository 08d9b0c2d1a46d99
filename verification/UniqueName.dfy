/** The search for a free `name(n).ext` beside a file that is already there. */
module UniqueName {
  // ---------------------------------------------------------------- decimal numerals

  function Digit(d: nat): char
    requires d < 10
  {
    '0' + d as char
  }

  function Decimal(n: nat): string {
    if n < 10 then [Digit(n)] else Decimal(n / 10) + [Digit(n % 10)]
  }

  /** Reading a numeral back. */
  function Value(s: string): int {
    if s == [] then 0 else 10 * Value(s[..|s| - 1]) + (s[|s| - 1] as int - '0' as int)
  }

  lemma {:induction false} ValueOfDecimal(n: nat)
    ensures Value(Decimal(n)) == n
    ensures forall i :: 0 <= i < |Decimal(n)| ==> '0' <= Decimal(n)[i] <= '9'
    ensures Decimal(n) != "" && (Decimal(n)[0] == '0' ==> Decimal(n) == "0")
  {
    if n >= 10 {
      var tens := n / 10;
      ValueOfDecimal(tens);
      assert Decimal(n)[..|Decimal(n)| - 1] == Decimal(tens);
      assert Value("0") == 0;
      assert Decimal(tens) != "0";
    } else {
      assert Value(Decimal(n)[..0]) == 0;
    }
  }

  /** The usual way to write a number: digits, and no zero in front. */
  predicate IsNumeral(s: string, n: nat) {
    && s != "" && (forall i :: 0 <= i < |s| ==> '0' <= s[i] <= '9') && (s[0] == '0' ==> s == "0") && Value(s) == n
  }

  // ---------------------------------------------------------------- names and extensions

  /** The position of the last dot, or -1. */
  function LastDot(s: string): (i: int)
    ensures -1 <= i < |s|
    ensures i >= 0 ==> s[i] == '.'
    ensures forall j :: i < j < |s| ==> s[j] != '.'
  {
    if s == [] then -1
    else if s[|s| - 1] == '.' then |s| - 1
    else LastDot(s[..|s| - 1])
  }

  predicate AllDots(s: string) {
    forall i :: 0 <= i < |s| ==> s[i] == '.'
  }

  /** Root and extension of a file name, the dot going with the extension; leading dots start no extension. */
  function SplitExt(name: string): (string, string) {
    var i := LastDot(name);
    if i < 0 || AllDots(name[..i]) then (name, "") else (name[..i], name[i..])
  }

  /** The extension without its dot. */
  function Extension(name: string): string {
    var ext := SplitExt(name).1;
    if ext == "" then "" else ext[1..]
  }

  function Candidate(filename: string, counter: nat): string {
    var ext := Extension(filename);
    SplitExt(filename).0 + "(" + Decimal(counter) + ")" + (if ext != "" then "." + ext else "")
  }

  /** Every dot of the name has nothing but dots before it. */
  predicate NoExtension(name: string) {
    forall i :: 0 <= i < |name| && name[i] == '.' ==> AllDots(name[..i])
  }

  /** A root and an extension: the extension starts at the last dot, unless only dots come before it. */
  predicate IsSplit(name: string, root: string, ext: string) {
    && name == root + ext
    && if ext == "" then NoExtension(name)
       else ext[0] == '.' && (forall i :: 0 < i < |ext| ==> ext[i] != '.') && !AllDots(root)
  }

  lemma SplitExtIff(name: string, root: string, ext: string)
    ensures SplitExt(name) == (root, ext) <==> IsSplit(name, root, ext)
  {
    SplitExtSplits(name);
    if IsSplit(name, root, ext) {
      SplitIsUnique(name, root, ext);
    }
  }

  lemma SplitExtSplits(name: string)
    ensures IsSplit(name, SplitExt(name).0, SplitExt(name).1)
  {
    var i := LastDot(name);
    if i >= 0 && !AllDots(name[..i]) {
      assert name == name[..i] + name[i..];
    } else {
      forall k | 0 <= k < |name| && name[k] == '.' ensures AllDots(name[..k]) {
        assert k <= i;
        assert forall j :: 0 <= j < k ==> name[..k][j] == name[..i][j];
      }
    }
  }

  lemma SplitIsUnique(name: string, root: string, ext: string)
    requires IsSplit(name, root, ext)
    ensures SplitExt(name) == (root, ext)
  {
    var i := LastDot(name);
    if ext == "" {
      assert root == name;
      if i >= 0 {
        assert AllDots(name[..i]);
      }
    } else {
      LastDotOfEnd(root, ext);
      assert name[..|root|] == root && name[|root|..] == ext;
    }
  }

  /** The candidate spelled out: root, the counter in brackets, and the extension, if it is more than its dot. */
  lemma CandidateReads(filename: string, counter: nat, root: string, ext: string)
    requires IsSplit(filename, root, ext)
    ensures exists numeral ::
      IsNumeral(numeral, counter)
      && Candidate(filename, counter) == root + "(" + numeral + ")" + (if ext == "." then "" else ext)
  {
    SplitExtIff(filename, root, ext);
    ValueOfDecimal(counter);
    hide LastDot, SplitExt, Decimal, Value;
    assert IsNumeral(Decimal(counter), counter);
    if ext != "" && ext != "." {
      assert ext == "." + ext[1..];
    }
  }

  /** Different counters give different names. */
  lemma CandidateInjective(filename: string, m: nat, n: nat)
    requires Candidate(filename, m) == Candidate(filename, n)
    ensures m == n
  {
    hide Decimal, Value, SplitExt, Extension;
    var k := |SplitExt(filename).0| + 1;
    var c := Candidate(filename, m);
    assert c[k..k + |Decimal(m)|] == Decimal(m);
    assert c[k..k + |Decimal(n)|] == Decimal(n);
    ValueOfDecimal(m);
    ValueOfDecimal(n);
  }

  /** A file name whose own dot at the end hides another extension before it. */
  predicate EndsInBareDot(filename: string) {
    filename != "" && filename[|filename| - 1] == '.' && SplitExt(filename[..|filename| - 1]).1 != ""
  }

  lemma ProperExtensionKept(filename: string, counter: nat)
    requires Extension(filename) != ""
    ensures Extension(Candidate(filename, counter)) == Extension(filename)
  {
    hide Decimal;
    var c, root, ext := Candidate(filename, counter), SplitExt(filename).0, SplitExt(filename).1;
    assert ext == "." + Extension(filename);
    assert forall i :: 0 < i < |ext| ==> ext[i] != '.';
    hide SplitExt, Extension;
    SplitAt(root + "(" + Decimal(counter) + ")", ext, |root|);
    ExtensionOf(c, ext);
  }

  lemma SplitAt(front: string, ext: string, k: nat)
    requires k < |front| && front[k] != '.'
    requires |ext| > 1 && ext[0] == '.' && forall i :: 0 < i < |ext| ==> ext[i] != '.'
    ensures SplitExt(front + ext) == (front, ext)
  {
    LastDotOfEnd(front, ext);
    hide LastDot;
    var s := front + ext;
    assert s[..|front|] == front && s[|front|..] == ext;
  }

  lemma ExtensionOf(name: string, ext: string)
    requires ext != "" && SplitExt(name).1 == ext
    ensures "." + Extension(name) == "." + ext[1..]
    ensures Extension(name) == ext[1..]
  {
  }

  lemma NoExtensionKeptIff(filename: string, counter: nat)
    requires Extension(filename) == ""
    ensures Extension(Candidate(filename, counter)) == "" <==> SplitExt(SplitExt(filename).0).1 == ""
  {
    var c := Candidate(filename, counter);
    var root, digits := SplitExt(filename).0, Decimal(counter);
    ValueOfDecimal(counter);
    hide Decimal, Value;
    var end := "(" + digits + ")";
    assert c == root + end;
    LastDotOfFront(root, end);
    var i := LastDot(root);
    if i >= 0 {
      assert c[..i] == root[..i] && |c[i..]| > 1;
    }
  }

  /** The renamed file keeps its extension, exactly when no bare dot at the end hides another one. */
  lemma ExtensionKeptIff(filename: string, counter: nat)
    ensures Extension(Candidate(filename, counter)) == Extension(filename) <==> !EndsInBareDot(filename)
  {
    if Extension(filename) != "" {
      ProperExtensionKept(filename, counter);
      NoBareDot(filename);
    } else {
      NoExtensionKeptIff(filename, counter);
      BareDot(filename);
    }
  }

  lemma LastDotOfEnd(front: string, end: string)
    requires end != "" && end[0] == '.' && forall i :: 0 < i < |end| ==> end[i] != '.'
    ensures LastDot(front + end) == |front|
  {
    var s := front + end;
    assert s[|front|] == '.';
    assert forall j :: |front| <= j < |s| ==> s[j] == end[j - |front|];
  }

  lemma LastDotOfFront(front: string, end: string)
    requires forall i :: 0 <= i < |end| ==> end[i] != '.'
    ensures LastDot(front + end) == LastDot(front)
  {
    var s, i := front + end, LastDot(front + end);
    assert forall j :: |front| <= j < |s| ==> s[j] == end[j - |front|];
    if LastDot(front) >= 0 {
      assert s[LastDot(front)] == '.';
    }
    if i >= 0 {
      assert front[i] == '.';
    }
  }

  lemma NoBareDot(filename: string)
    requires Extension(filename) != ""
    ensures !EndsInBareDot(filename)
  {
  }

  lemma BareDot(filename: string)
    requires Extension(filename) == ""
    ensures SplitExt(SplitExt(filename).0).1 != "" <==> EndsInBareDot(filename)
  {
    var i := LastDot(filename);
    if i >= 0 && i == |filename| - 1 {
      if AllDots(filename[..i]) {
        var j := LastDot(filename[..i]);
        if j >= 0 {
          assert AllDots(filename[..i][..j]);
        }
      }
    }
  }

  // ---------------------------------------------------------------- the search

  function Tried(filename: string, n: nat): set<string> {
    set m | 1 <= m <= n :: Candidate(filename, m)
  }

  /** Pigeonhole: n taken candidates are n different entries. */
  lemma {:induction false} TriedAreDistinct(filename: string, n: nat)
    ensures |Tried(filename, n)| == n
    decreases n
  {
    if n > 0 {
      TriedAreDistinct(filename, n - 1);
      assert Tried(filename, n) == Tried(filename, n - 1) + {Candidate(filename, n)};
      if Candidate(filename, n) in Tried(filename, n - 1) {
        var m :| 1 <= m <= n - 1 && Candidate(filename, m) == Candidate(filename, n);
        CandidateInjective(filename, m, n);
      }
    }
  }

  lemma {:induction false} SubsetSize<T>(a: set<T>, b: set<T>)
    requires a <= b
    ensures |a| <= |b|
  {
    assert b == a + (b - a);
  }

  /** In a directory of k entries the search ends within k + 1 tries, with the smallest free candidate. */
  method GenerateUniqueName(taken: set<string>, filename: string) returns (candidate: string, counter: nat)
    ensures candidate == Candidate(filename, counter) && candidate !in taken
    ensures 1 <= counter <= |taken| + 1
    ensures forall m :: 1 <= m < counter ==> Candidate(filename, m) in taken
  {
    counter := 1;
    candidate := Candidate(filename, counter);
    while candidate in taken
      invariant candidate == Candidate(filename, counter) && 1 <= counter <= |taken| + 1
      invariant forall m :: 1 <= m < counter ==> Candidate(filename, m) in taken
      decreases |taken| + 1 - counter
    {
      TriedAreDistinct(filename, counter);
      SubsetSize(Tried(filename, counter), taken);
      counter := counter + 1;
      candidate := Candidate(filename, counter);
    }
  }
}
