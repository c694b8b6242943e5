/**
 * `get_twitter_user_handle` (pump_fun_scraper.py:95-121): the handle is the
 * first `/`-separated segment of a URL's path once every leading and
 * trailing `/` has been stripped. The URL parser itself is not modelled:
 * the corrected function takes the path component.
 */
module TwitterHandle {
  import opened Wrappers

  /** Every character of `s` is a slash. */
  ghost predicate AllSlashes(s: string) {
    forall k :: 0 <= k < |s| ==> s[k] == '/'
  }

  /** Python's `s.lstrip("/")`: the suffix left after every leading slash. */
  function TrimStart(s: string): (r: string)
    ensures |r| <= |s| && r == s[|s| - |r|..]
    ensures AllSlashes(s[..|s| - |r|])
    ensures r == [] || r[0] != '/'
    decreases |s|
  {
    if |s| > 0 && s[0] == '/' then
      var r := TrimStart(s[1..]);
      assert s[..|s| - |r|] == [s[0]] + s[1..][..|s| - 1 - |r|];
      r
    else s
  }

  /** Python's `s.rstrip("/")`: the prefix left after every trailing slash. */
  function TrimEnd(s: string): (r: string)
    ensures |r| <= |s| && r == s[..|r|]
    ensures AllSlashes(s[|r|..])
    ensures r == [] || r[|r| - 1] != '/'
    decreases |s|
  {
    if |s| > 0 && s[|s| - 1] == '/' then
      var r := TrimEnd(s[..|s| - 1]);
      assert s[|r|..] == s[..|s| - 1][|r|..] + [s[|s| - 1]];
      r
    else s
  }

  /** Python's `s.strip("/")`: neither starts nor ends with a slash. */
  function StripSlashes(s: string): (r: string)
    ensures r == [] || (r[0] != '/' && r[|r| - 1] != '/')
  {
    TrimEnd(TrimStart(s))
  }

  /**
   * What `strip("/")` keeps is the part of `s` between its leading run of
   * slashes and its trailing run of slashes.
   */
  lemma {:induction false} StripSlashesKeepsMiddle(s: string)
    ensures var r, k := StripSlashes(s), |s| - |TrimStart(s)|;
      k + |r| <= |s| && r == s[k..k + |r|] && AllSlashes(s[..k]) && AllSlashes(s[k + |r|..])
  {
    var u := TrimStart(s);
    var r := TrimEnd(u);
    var k := |s| - |u|;
    assert StripSlashes(s) == r;
    assert u == s[k..] && AllSlashes(s[..k]);
    assert r == u[..|r|] && AllSlashes(u[|r|..]);
    SlicesOfSuffix(s, k, |r|);
    SlashesEqual(u[|r|..], s[k + |r|..]);
  }

  /** An all-slash string stays all-slash under equality (keeps the solver off the quantifier). */
  lemma SlashesEqual(a: string, b: string)
    requires a == b && AllSlashes(a)
    ensures AllSlashes(b)
  {
  }

  /** Slicing a suffix `s[k..]` is slicing `s` further on. */
  lemma SlicesOfSuffix<T>(s: seq<T>, k: nat, n: nat)
    requires k + n <= |s|
    ensures s[k..][..n] == s[k..k + n] && s[k..][n..] == s[k + n..]
  {
  }

  /** Python's `s.split("/")`: never empty, and no part holds a slash. */
  function Split(s: string): (parts: seq<string>)
    ensures |parts| >= 1
    ensures forall i :: 0 <= i < |parts| ==> '/' !in parts[i]
    decreases |s|
  {
    if s == [] then [""]
    else
      var rest := Split(s[1..]);
      if s[0] == '/' then [""] + rest
      else [[s[0]] + rest[0]] + rest[1..]
  }

  /** Python's `"/".join(parts)`, the inverse of Split. */
  function Join(parts: seq<string>): string {
    if |parts| == 0 then ""
    else if |parts| == 1 then parts[0]
    else parts[0] + "/" + Join(parts[1..])
  }

  /** Joining the parts of a split gives back the string. */
  lemma {:induction false} JoinSplit(s: string)
    ensures Join(Split(s)) == s
    decreases |s|
  {
    if s != [] {
      var rest := Split(s[1..]);
      JoinSplit(s[1..]);
      if s[0] == '/' {
        assert Join(Split(s)) == "" + "/" + Join(rest);
      } else if |rest| == 1 {
        assert Join(Split(s)) == [s[0]] + rest[0];
      } else {
        assert Join(rest) == rest[0] + "/" + Join(rest[1..]);
        assert Join(Split(s)) == [s[0]] + rest[0] + "/" + Join(rest[1..]);
      }
    }
  }

  /** Splitting a string that starts with a slash-free part `p`. */
  lemma {:induction false} SplitAfterSlashFree(p: string, t: string)
    requires '/' !in p
    ensures Split(p + t) == [p + Split(t)[0]] + Split(t)[1..]
    decreases |p|
  {
    if p == [] {
      assert p + t == t && p + Split(t)[0] == Split(t)[0];
      assert Split(t) == [Split(t)[0]] + Split(t)[1..];
    } else {
      SplitAfterSlashFree(p[1..], t);
      assert (p + t)[0] == p[0] && (p + t)[1..] == p[1..] + t;
      assert [p[0]] + (p[1..] + Split(t)[0]) == p + Split(t)[0];
    }
  }

  /** Splitting the join of slash-free parts gives back the parts. */
  lemma {:induction false} SplitJoin(parts: seq<string>)
    requires |parts| >= 1
    requires forall i :: 0 <= i < |parts| ==> '/' !in parts[i]
    ensures Split(Join(parts)) == parts
    decreases |parts|
  {
    if |parts| == 1 {
      SplitAfterSlashFree(parts[0], "");
      assert parts[0] + "" == parts[0];
    } else {
      var j := Join(parts[1..]);
      SplitJoin(parts[1..]);
      assert ("/" + j)[0] == '/' && ("/" + j)[1..] == j;
      assert Split("/" + j) == [""] + parts[1..];
      assert parts[0] + "/" + j == parts[0] + ("/" + j);
      SplitAfterSlashFree(parts[0], "/" + j);
      assert parts[0] + "" == parts[0];
    }
  }

  /** `h` is the longest prefix of `s` without a slash. */
  ghost predicate IsFirstSegment(s: string, h: string) {
    |h| <= |s| && h == s[..|h|] && '/' !in h && (|h| == |s| || s[|h|] == '/')
  }

  /** The first part of a split is the longest slash-free prefix. */
  lemma {:induction false} SplitHeadIsFirstSegment(s: string)
    ensures IsFirstSegment(s, Split(s)[0])
    decreases |s|
  {
    if s != [] && s[0] != '/' {
      var r := Split(s[1..])[0];
      SplitHeadIsFirstSegment(s[1..]);
      assert s[..1 + |r|] == [s[0]] + s[1..][..|r|];
    }
  }

  /** A string has only one longest slash-free prefix. */
  lemma FirstSegmentUnique(s: string, h1: string, h2: string)
    requires IsFirstSegment(s, h1) && IsFirstSegment(s, h2)
    ensures h1 == h2
  {
  }

  /**
   * `h` is the handle of `path`: the first slash-free segment after the
   * path's leading slashes; an all-slash path has the empty handle.
   */
  ghost predicate IsUserHandle(path: string, h: string) {
    exists i :: HandleAt(path, i, h)
  }

  /** `h` is the handle of `path` and starts at index `i`. */
  ghost predicate HandleAt(path: string, i: int, h: string) {
    0 <= i <= |path| && AllSlashes(path[..i]) && IsFirstSegment(path[i..], h) && (h == "" ==> i == |path|)
  }

  /** The first segment of the stripped path is the handle of the path. */
  lemma StrippedHeadIsUserHandle(path: string)
    ensures IsUserHandle(path, Split(StripSlashes(path))[0])
  {
    var u := TrimStart(path);
    var k := |path| - |u|;
    var stripped := TrimEnd(u);
    var h := Split(stripped)[0];
    SplitHeadIsFirstSegment(stripped);
    assert path[k..] == u;
    assert u[..|h|] == stripped[..|h|];
    if |h| < |stripped| {
      assert u[|h|] == stripped[|h|];
    } else if |h| < |u| {
      assert u[|h|] == u[|stripped|..][0];
    }
    if h == "" {
      assert u == u[|stripped|..];
    }
    assert HandleAt(path, k, h);
  }

  /** Stripping the leading slashes stops at the first character that is not one. */
  lemma {:induction false} TrimStartStopsAt(s: string, i: nat)
    requires i <= |s| && AllSlashes(s[..i]) && (i == |s| || s[i] != '/')
    ensures TrimStart(s) == s[i..]
    decreases i
  {
    if i > 0 {
      assert s[0] == s[..i][0];
      assert s[1..][..i - 1] == s[..i][1..];
      TrimStartStopsAt(s[1..], i - 1);
      assert s[1..][i - 1..] == s[i..];
    }
  }

  /** The segment of a handle starts right after the path's leading slashes. */
  lemma HandleStartsAfterLeadingSlashes(path: string, i: int, h: string)
    requires HandleAt(path, i, h)
    ensures i == |path| - |TrimStart(path)|
  {
    if h != "" {
      assert path[i] == h[0];
    }
    TrimStartStopsAt(path, i);
  }

  /** A path has exactly one handle. */
  lemma UserHandleUnique(path: string, h1: string, h2: string)
    requires IsUserHandle(path, h1) && IsUserHandle(path, h2)
    ensures h1 == h2
  {
    var i1 :| HandleAt(path, i1, h1);
    var i2 :| HandleAt(path, i2, h2);
    HandleStartsAfterLeadingSlashes(path, i1, h1);
    HandleStartsAfterLeadingSlashes(path, i2, h2);
    FirstSegmentUnique(path[i1..], h1, h2);
  }

  /**
   * `get_twitter_user_handle` as intended, given the URL's path: None for
   * None, otherwise the first segment of the path with its outer slashes
   * stripped, which is never None (an empty or all-slash path gives "").
   */
  function UserHandle(path: Option<string>): (h: Option<string>)
    ensures h.Some? <==> path.Some?
    ensures path.Some? ==> '/' !in h.value && IsUserHandle(path.value, h.value)
  {
    match path
    case None => None
    case Some(p) =>
      StrippedHeadIsUserHandle(p);
      Some(Split(StripSlashes(p))[0])
  }

  /** The handle is determined by its definition: whatever satisfies IsUserHandle is what UserHandle returns. */
  lemma UserHandleIsTheHandle(path: string, h: string)
    ensures UserHandle(Some(path)) == Some(h) <==> IsUserHandle(path, h)
  {
    if IsUserHandle(path, h) {
      UserHandleUnique(path, h, UserHandle(Some(path)).value);
    }
  }

  /** The handle is empty exactly when the path is empty or all slashes. */
  lemma EmptyHandleIffAllSlashes(path: string)
    ensures UserHandle(Some(path)) == Some("") <==> AllSlashes(path)
  {
    var h := UserHandle(Some(path)).value;
    var i :| HandleAt(path, i, h);
    if h == "" {
      assert path[..i] == path;
    }
    if AllSlashes(path) {
      assert path[|path|..] == "" && path[..|path|] == path;
      assert HandleAt(path, |path|, "");
      UserHandleIsTheHandle(path, "");
    }
  }

  /** A status URL's path yields the account name. */
  lemma StatusPathYieldsAccount()
    ensures UserHandle(Some("/elonmusk/status/1")) == Some("elonmusk")
  {
    var p := "/elonmusk/status/1";
    assert p[..1] == "/" && p[1..][..8] == "elonmusk" && p[1..][8] == '/';
    assert IsFirstSegment(p[1..], "elonmusk");
    assert HandleAt(p, 1, "elonmusk");
    UserHandleIsTheHandle(p, "elonmusk");
  }

  /**
   * A string with no slash is its own handle: the path of "not a url" is
   * the whole string, and the handle is not None.
   */
  lemma SlashFreePathIsItsOwnHandle(path: string)
    requires '/' !in path
    ensures UserHandle(Some(path)) == Some(path)
  {
    assert path[..0] == "" && path[0..] == path && path[..|path|] == path;
    assert HandleAt(path, 0, path);
    UserHandleIsTheHandle(path, path);
  }

  /**
   * `get_twitter_user_handle` as shipped: `urlparse` is called at :111 but
   * never imported, so every non-None argument raises NameError, which the
   * handler at :119-121 turns into None.
   */
  function UserHandleAsWritten(url: Option<string>): Option<string> {
    match url
    case None => None
    case Some(_) => None
  }
}
