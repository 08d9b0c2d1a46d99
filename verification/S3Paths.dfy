/** Logical paths and object keys of one S3 category. */
module S3Paths {
  import opened Wrappers
  import opened PathText

  datatype Error = InvalidKey

  const VIDEO_PREFIX := "videos"

  /** A key is prefix, pseudo name and relative path, cut at its first two slashes. */
  function PseudoNameFromKey(key: string): Result<(string, string), Error> {
    if FirstSlash(key) == |key| then Err(InvalidKey)
    else Ok((Before(After(key)), After(After(key))))
  }

  function ParseLogical(category: string, path: string): (string, string) {
    var rest := if category + "/" <= path then path[|category| + 1..] else path;
    (Before(rest), After(rest))
  }

  /** `convert_to_DB_format_path`. */
  function ToDb(category: string, path: string): Result<string, Error> {
    var p := StripRight(path);
    if category + "/" <= p then Ok(p)
    else
      match PseudoNameFromKey(p)
      case Err(e) => Err(e)
      case Ok((pseudoName, relative)) =>
        Ok(if relative != "" then category + "/" + pseudoName + "/" + relative else category + "/" + pseudoName)
  }

  /** `convert_to_FS_format_path`. */
  function ToFs(category: string, path: string): string {
    if VIDEO_PREFIX + "/" <= path then path
    else
      var (pseudoName, relative) := ParseLogical(category, path);
      PosixJoin(PosixJoin(VIDEO_PREFIX, pseudoName), relative)
  }

  predicate Category(category: string) {
    category != "" && NoSlash(category)
  }

  /** A pseudo name, no second slash right after it, no slash at the end. */
  predicate Clean(rest: string) {
    rest != "" && Before(rest) != "" && !("/" <= After(rest)) && rest[|rest| - 1] != '/'
  }

  lemma Parted(s: string)
    ensures s == (if FirstSlash(s) < |s| then Before(s) + "/" + After(s) else Before(s))
    ensures NoSlash(Before(s))
  {
    var k := FirstSlash(s);
    assert forall j :: 0 <= j < k ==> s[..k][j] == s[j] != '/';
    if k < |s| {
      CutAt(s, k);
    }
    hide FirstSlash;
  }

  lemma CutAt(s: string, k: nat)
    requires k < |s|
    ensures s == s[..k] + [s[k]] + s[k + 1..]
  {
  }

  lemma Unstripped(s: string)
    requires s == "" || s[|s| - 1] != '/'
    ensures StripRight(s) == s
  {
  }

  /** The slashes `StripRight` takes away, one more makes no difference. */
  lemma StripOneMore(s: string)
    ensures StripRight(s + "/") == StripRight(s)
  {
    assert (s + "/")[..|s|] == s;
  }

  lemma Regroup(a: string, b: string, c: string)
    ensures a + "/" + b + "/" + c == a + "/" + (b + "/" + c)
  {
  }

  lemma JoinKey(prefix: string, name: string, relative: string)
    requires prefix != "" && NoSlash(prefix) && NoSlash(name) && !("/" <= relative)
    ensures PosixJoin(PosixJoin(prefix, name), relative) ==
      (if name == "" then prefix + "/" + relative else prefix + "/" + name + "/" + relative)
  {
    var head := prefix + "/" + name;
    assert name != "" ==> name[0] != '/';
    assert prefix[|prefix| - 1] != '/' && PosixJoin(prefix, name) == head;
    assert name != "" ==> head[|head| - 1] == name[|name| - 1] != '/';
  }

  /** The key of a clean path keeps it after the prefix; a bare pseudo name gains a slash. */
  lemma KeyText(prefix: string, rest: string)
    requires Clean(rest) && prefix != "" && NoSlash(prefix)
    ensures PosixJoin(PosixJoin(prefix, Before(rest)), After(rest)) ==
      (if After(rest) != "" then prefix + "/" + rest else prefix + "/" + rest + "/")
  {
    RestParts(rest);
    hide FirstSlash, Before, After, PosixJoin, NoSlash;
    var name, relative := Before(rest), After(rest);
    JoinKey(prefix, name, relative);
    Regroup(prefix, name, relative);
  }

  lemma RestParts(rest: string)
    requires rest != "" && rest[|rest| - 1] != '/'
    ensures rest == (if After(rest) != "" then Before(rest) + "/" + After(rest) else Before(rest))
    ensures NoSlash(Before(rest))
  {
    Parted(rest);
  }

  lemma StripKey(prefix: string, rest: string)
    requires rest != "" && rest[|rest| - 1] != '/'
    ensures StripRight(prefix + "/" + rest) == prefix + "/" + rest
    ensures StripRight(prefix + "/" + rest + "/") == prefix + "/" + rest
  {
    var s := prefix + "/" + rest;
    assert s[|s| - 1] == rest[|rest| - 1];
    StripOneMore(s);
  }

  /** A key reads as the logical path with the same rest. */
  lemma ToDbReads(category: string, prefix: string, rest: string)
    requires Category(category) && NoSlash(prefix) && prefix != category && rest != "" && rest[|rest| - 1] != '/'
    ensures ToDb(category, prefix + "/" + rest) == Ok(category + "/" + rest)
    ensures ToDb(category, prefix + "/" + rest + "/") == Ok(category + "/" + rest)
  {
    StripKey(prefix, rest);
    OtherPrefix(category, prefix, rest);
    KeyReads(prefix, rest);
    RestParts(rest);
    Regroup(category, Before(rest), After(rest));
    hide FirstSlash, StripRight, Before, After, PseudoNameFromKey, NoSlash;
  }

  lemma KeyReads(prefix: string, rest: string)
    requires NoSlash(prefix)
    ensures PseudoNameFromKey(prefix + "/" + rest) == Ok((Before(rest), After(rest)))
  {
    Partition(prefix, rest);
    assert (prefix + "/" + rest)[|prefix|] == '/';
  }

  lemma OtherPrefix(category: string, prefix: string, rest: string)
    requires NoSlash(category) && NoSlash(prefix) && prefix != category
    ensures !(category + "/" <= prefix + "/" + rest)
  {
    if category + "/" <= prefix + "/" + rest {
      Partition(prefix, rest);
      var tail := (prefix + "/" + rest)[|category| + 1..];
      assert prefix + "/" + rest == category + "/" + tail;
      Partition(category, tail);
    }
  }

  // ---------------------------------------------------------------- round trips

  /** There and back from a logical path, exactly when it is clean. */
  lemma DbOfFsIff(category: string, rest: string)
    requires Category(category) && category != VIDEO_PREFIX
    ensures ToDb(category, ToFs(category, category + "/" + rest)) == Ok(category + "/" + rest) <==> Clean(rest)
  {
    var d := category + "/" + rest;
    OtherPrefix(VIDEO_PREFIX, category, rest);
    assert d[|category| + 1..] == rest;
    var name, relative := Before(rest), After(rest);
    assert ToFs(category, d) == PosixJoin(PosixJoin(VIDEO_PREFIX, name), relative);
    if Clean(rest) {
      KeyText(VIDEO_PREFIX, rest);
      ToDbReads(category, VIDEO_PREFIX, rest);
    } else {
      UncleanIsLost(category, rest);
    }
  }

  lemma UncleanIsLost(category: string, rest: string)
    requires Category(category) && category != VIDEO_PREFIX && !Clean(rest)
    ensures ToDb(category, PosixJoin(PosixJoin(VIDEO_PREFIX, Before(rest)), After(rest))) != Ok(category + "/" + rest)
  {
    var d := category + "/" + rest;
    assert d[|d| - 1] == (if rest == "" then '/' else rest[|rest| - 1]);
    if rest == "" || rest[|rest| - 1] == '/' {
      var key := PosixJoin(PosixJoin(VIDEO_PREFIX, Before(rest)), After(rest));
      if ToDb(category, key).Ok? {
        ToDbNeverEndsInSlash(category, key);
      }
    } else {
      Parted(rest);
      ShorterKey(category, rest);
    }
  }

  lemma ToDbNeverEndsInSlash(category: string, path: string)
    requires ToDb(category, path).Ok? && NoSlash(category)
    ensures var d := ToDb(category, path).result; d == "" || d[|d| - 1] != '/'
  {
    hide FirstSlash;
    var p := StripRight(path);
    if !(category + "/" <= p) {
      var rest := After(p);
      Parted(p);
      assert p == Before(p) + "/" + rest;
      assert rest != "" && rest[|rest| - 1] == p[|p| - 1];
      AfterEnd(rest);
    }
  }

  lemma AfterEnd(rest: string)
    requires rest != "" && rest[|rest| - 1] != '/'
    ensures if After(rest) == "" then Before(rest) == rest else After(rest)[|After(rest)| - 1] != '/'
  {
    Parted(rest);
  }

  lemma ShorterKey(category: string, rest: string)
    requires Category(category) && category != VIDEO_PREFIX
    requires rest != "" && rest[|rest| - 1] != '/' && (Before(rest) == "" || "/" <= After(rest))
    ensures ToDb(category, PosixJoin(PosixJoin(VIDEO_PREFIX, Before(rest)), After(rest))) != Ok(category + "/" + rest)
  {
    RestParts(rest);
    var relative := After(rest);
    hide After, Before, ToDb;
    assert relative != "" && relative[|relative| - 1] == rest[|rest| - 1];
    if "/" <= relative {
      assert relative == "" + "/" + relative[1..];
      ToDbReads(category, "", relative[1..]);
    } else {
      JoinKey(VIDEO_PREFIX, "", relative);
      ToDbReads(category, VIDEO_PREFIX, relative);
    }
  }

  /** The logical path of a key: its rest under the category. */
  lemma DbOfKey(category: string, rest: string)
    requires Category(category) && Clean(StripRight(rest))
    ensures ToDb(category, VIDEO_PREFIX + "/" + rest) == Ok(category + "/" + StripRight(rest))
    ensures StripRight(VIDEO_PREFIX + "/" + rest) == VIDEO_PREFIX + "/" + StripRight(rest)
  {
    var s := StripRight(rest);
    StripPrefixed(VIDEO_PREFIX, rest);
    StripKey(VIDEO_PREFIX, s);
    if category != VIDEO_PREFIX {
      ToDbReads(category, VIDEO_PREFIX, s);
      ToDbStripped(category, VIDEO_PREFIX + "/" + rest, VIDEO_PREFIX + "/" + s);
      hide *;
    }
  }

  lemma ToDbStripped(category: string, path: string, path': string)
    requires StripRight(path) == StripRight(path')
    ensures ToDb(category, path) == ToDb(category, path')
  {
  }

  /** There and back from a key of a configured place, but for slashes at its end. */
  lemma FsOfDb(category: string, rest: string)
    requires Category(category) && Clean(StripRight(rest))
    ensures var key := VIDEO_PREFIX + "/" + rest;
      ToDb(category, key).Ok? && StripRight(ToFs(category, ToDb(category, key).result)) == StripRight(key)
  {
    var s := StripRight(rest);
    DbOfKey(category, rest);
    StripKey(VIDEO_PREFIX, s);
    FsOfLogical(category, s);
    hide *;
  }

  /** The key of a clean logical path: its rest under the prefix, a bare pseudo name as a prefix of its own. */
  lemma FsOfLogical(category: string, s: string)
    requires Category(category) && Clean(s)
    ensures ToFs(category, category + "/" + s) ==
      if After(s) != "" || category == VIDEO_PREFIX then VIDEO_PREFIX + "/" + s else VIDEO_PREFIX + "/" + s + "/"
  {
    KeyText(VIDEO_PREFIX, s);
    if category != VIDEO_PREFIX {
      OtherPrefix(VIDEO_PREFIX, category, s);
    }
    hide Before, After, Clean, PosixJoin;
    assert (category + "/" + s)[|category| + 1..] == s;
  }

  lemma {:induction false} StripPrefixed(prefix: string, rest: string)
    requires StripRight(rest) != ""
    ensures StripRight(prefix + "/" + rest) == prefix + "/" + StripRight(rest)
    decreases |rest|
  {
    var s := prefix + "/" + rest;
    if rest[|rest| - 1] == '/' {
      assert s[..|s| - 1] == prefix + "/" + rest[..|rest| - 1];
      StripPrefixed(prefix, rest[..|rest| - 1]);
    }
  }

  /** Converting to logical form twice converts once, for every text that converts at all. */
  lemma ToDbIdempotent(category: string, path: string)
    requires NoSlash(category) && ToDb(category, path).Ok?
    ensures ToDb(category, ToDb(category, path).result) == ToDb(category, path)
  {
    var d := ToDb(category, path).result;
    ToDbNeverEndsInSlash(category, path);
    Unstripped(d);
    hide StripRight, PseudoNameFromKey;
    assert category + "/" <= d;
  }

  /** Converting to a key twice converts once, exactly when no absolute path hides behind the pseudo name. */
  lemma ToFsIdempotentIff(category: string, path: string)
    requires Category(category)
    ensures ToFs(category, ToFs(category, path)) == ToFs(category, path) <==>
      VIDEO_PREFIX + "/" <= path || !("/" <= ParseLogical(category, path).1)
  {
    if !(VIDEO_PREFIX + "/" <= path) {
      var (name, relative) := ParseLogical(category, path);
      ParsedName(category, path);
      if "/" <= relative {
        AbsoluteMoves(category, relative);
        hide ParseLogical, FirstSlash, NoSlash;
      } else {
        JoinKey(VIDEO_PREFIX, name, relative);
        KeyIsKept(category, ToFs(category, path), name, relative);
        hide *;
      }
    }
  }

  lemma ParsedName(category: string, path: string)
    ensures NoSlash(ParseLogical(category, path).0)
  {
    Parted(if category + "/" <= path then path[|category| + 1..] else path);
  }

  lemma KeyIsKept(category: string, key: string, name: string, relative: string)
    requires key == if name == "" then VIDEO_PREFIX + "/" + relative else VIDEO_PREFIX + "/" + name + "/" + relative
    ensures ToFs(category, key) == key
  {
    hide ParseLogical, PosixJoin;
    assert VIDEO_PREFIX + "/" <= key;
  }

  lemma AbsoluteMoves(category: string, relative: string)
    requires Category(category) && "/" <= relative
    ensures ToFs(category, relative) != relative
  {
    assert !(category + "/" <= relative) by { assert (category + "/")[0] == category[0]; }
    Partition("", relative[1..]);
    assert "" + "/" + relative[1..] == relative;
    hide FirstSlash;
    assert PosixJoin(VIDEO_PREFIX, "") == VIDEO_PREFIX + "/";
    assert !(VIDEO_PREFIX + "/" <= relative);
  }
}
