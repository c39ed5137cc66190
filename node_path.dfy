/**
 * The two functions of Node's `path` module that the command builder uses,
 * `path.join` and `path.dirname`, reduced to separator handling.  On Windows
 * Node uses `path.win32`: it joins with a backslash and accepts both `/` and
 * `\` as separators; elsewhere only `/` is a separator.
 */
module NodePath {

  /** Is `c` a path separator on the given platform? */
  predicate IsSeparator(windows: bool, c: char) {
    c == '/' || (windows && c == '\\')
  }

  /** The separator `path.join` inserts. */
  function Separator(windows: bool): (c: char)
    ensures IsSeparator(windows, c)
  {
    if windows then '\\' else '/'
  }

  /**
   * `path.join(a, b)`: `b` appended to `a` with one separator between them;
   * no separator is added when `a` is empty or already ends in one.
   */
  function Join(windows: bool, a: string, b: string): (r: string)
    ensures |a| + |b| <= |r| <= |a| + |b| + 1
  {
    if a == "" then b
    else if IsSeparator(windows, a[|a| - 1]) then a + b
    else a + [Separator(windows)] + b
  }

  /** The joined path starts with `a`, ends with `b`, and has a separator where they meet. */
  lemma JoinShape(windows: bool, a: string, b: string)
    ensures var r := Join(windows, a, b);
      a <= r && r[|r| - |b|..] == b &&
      (a != "" ==> IsSeparator(windows, r[|a| - 1]) || (|a| < |r| && IsSeparator(windows, r[|a|])))
  {
  }

  /** Joining in two steps: the separator belongs to the directory part. */
  lemma JoinSplits(windows: bool, a: string, b: string)
    ensures Join(windows, a, b) == Join(windows, a, "") + b
  {
  }

  /** The index of the last separator of `p`, or -1 when it has none. */
  function LastSeparator(windows: bool, p: string): (k: int)
    ensures -1 <= k < |p|
  {
    if p == "" then -1
    else if IsSeparator(windows, p[|p| - 1]) then |p| - 1
    else LastSeparator(windows, p[..|p| - 1])
  }

  /** LastSeparator is a separator and none follows it. */
  lemma {:induction false} LastSeparatorIsLast(windows: bool, p: string)
    ensures var k := LastSeparator(windows, p);
      (k >= 0 ==> IsSeparator(windows, p[k])) &&
      forall j :: k < j < |p| ==> !IsSeparator(windows, p[j])
  {
    if p != "" && !IsSeparator(windows, p[|p| - 1]) {
      var q := p[..|p| - 1];
      LastSeparatorIsLast(windows, q);
      assert forall j :: 0 <= j < |q| ==> q[j] == p[j];
    }
  }

  /**
   * `path.dirname(p)`: `p` without its last segment.  A path with no
   * separator has the current directory "." as its directory; a path whose
   * only separator is the leading one has the root as its directory.
   */
  function Dirname(windows: bool, p: string): (d: string)
    ensures d != ""
  {
    var k := LastSeparator(windows, p);
    if k > 0 then p[..k]
    else if k == 0 then p[..1]
    else "."
  }

  /** A path without separators lies in the current directory. */
  lemma DirnameOfName(windows: bool, p: string)
    requires forall j :: 0 <= j < |p| ==> !IsSeparator(windows, p[j])
    ensures Dirname(windows, p) == "."
  {
    LastSeparatorIsLast(windows, p);
  }

  /** A path whose only separator is the leading one lies in the root. */
  lemma DirnameOfRootChild(windows: bool, p: string)
    requires p != "" && IsSeparator(windows, p[0])
    requires forall j :: 0 < j < |p| ==> !IsSeparator(windows, p[j])
    ensures Dirname(windows, p) == p[..1]
  {
    LastSeparatorIsLast(windows, p);
  }

  /** Otherwise `dirname` strips exactly the last separator and the segment after it. */
  lemma DirnameStripsLastSegment(windows: bool, p: string)
    requires exists k :: 0 < k < |p| && IsSeparator(windows, p[k])
    ensures var d := Dirname(windows, p);
      d < p && IsSeparator(windows, p[|d|]) &&
      forall j :: |d| < j < |p| ==> !IsSeparator(windows, p[j])
  {
    LastSeparatorIsLast(windows, p);
  }

  /**
   * The directory of `a + "/" + n`, where the name `n` holds no separator,
   * is `a` itself whenever `a` is not empty.
   */
  lemma {:induction false} DirnameOfChild(windows: bool, a: string, n: string)
    requires a != ""
    requires forall j :: 0 <= j < |n| ==> !IsSeparator(windows, n[j])
    ensures Dirname(windows, a + "/" + n) == a
  {
    var p := a + "/" + n;
    LastSeparatorOfSuffix(windows, a + "/", n);
    assert p[..|a|] == a;
  }

  /** The last separator of `a + n` lies in `a` when `n` has none. */
  lemma {:induction false} LastSeparatorOfSuffix(windows: bool, a: string, n: string)
    requires a != "" && IsSeparator(windows, a[|a| - 1])
    requires forall j :: 0 <= j < |n| ==> !IsSeparator(windows, n[j])
    ensures LastSeparator(windows, a + n) == |a| - 1
  {
    if n != "" {
      var p := a + n;
      assert !IsSeparator(windows, p[|p| - 1]);
      assert p[..|p| - 1] == a + n[..|n| - 1];
      LastSeparatorOfSuffix(windows, a, n[..|n| - 1]);
    } else {
      assert a + n == a;
    }
  }
}
