/**
 * The method-declaration test of the upward scan: the JavaScript regular
 * expression
 *
 *     ^\s*(?:public|private|protected)?\s*function\s*(\w+)\s*\(.*$
 *
 * (no flags) applied to one document line, and its first capture group.
 * `MatchDeclaration` is a hand-written matcher; `Declares` states the same
 * language as a split of the line into the pattern's pieces, and
 * `MatchDeclarationCorrect` proves the two agree, capture included.
 */
module DeclarationPattern {
  import opened Wrappers

  /** JavaScript's `\s`: WhiteSpace and LineTerminator characters. */
  predicate IsWhitespace(c: char) {
    c == ' ' || c == '\t' || c == '\n' || c == '\U{B}' || c == '\U{C}' || c == '\r' ||
    c == '\U{A0}' || c == '\U{1680}' || ('\U{2000}' <= c <= '\U{200A}') ||
    c == '\U{2028}' || c == '\U{2029}' || c == '\U{202F}' || c == '\U{205F}' ||
    c == '\U{3000}' || c == '\U{FEFF}'
  }

  /** The characters `.` does not match. */
  predicate IsLineTerminator(c: char): (b: bool)
    ensures b ==> IsWhitespace(c)
  {
    c == '\n' || c == '\r' || c == '\U{2028}' || c == '\U{2029}'
  }

  /** JavaScript's `\w`. */
  predicate IsWordChar(c: char): (b: bool)
    ensures b ==> !IsWhitespace(c) && !IsLineTerminator(c)
  {
    ('a' <= c <= 'z') || ('A' <= c <= 'Z') || ('0' <= c <= '9') || c == '_'
  }

  predicate AllWhitespace(s: string) {
    forall k :: 0 <= k < |s| ==> IsWhitespace(s[k])
  }

  predicate IsIdentifier(s: string) {
    s != "" && forall k :: 0 <= k < |s| ==> IsWordChar(s[k])
  }

  predicate OnOneLine(s: string) {
    forall k :: 0 <= k < |s| ==> !IsLineTerminator(s[k])
  }

  /** The alternatives of the optional visibility group, "" standing for its absence. */
  predicate IsVisibility(kw: string) {
    kw == "" || kw == "public" || kw == "private" || kw == "protected"
  }

  /** The end of the longest run of whitespace starting at `i`. */
  function SkipWhitespace(s: string, i: nat): (j: nat)
    requires i <= |s|
    ensures i <= j <= |s|
    decreases |s| - i
  {
    if i < |s| && IsWhitespace(s[i]) then SkipWhitespace(s, i + 1) else i
  }

  /** SkipWhitespace stops at the end of a run of whitespace that cannot be extended. */
  lemma {:induction false} SkipWhitespaceRun(s: string, i: nat)
    requires i <= |s|
    ensures forall k :: i <= k < SkipWhitespace(s, i) ==> IsWhitespace(s[k])
    ensures SkipWhitespace(s, i) == |s| || !IsWhitespace(s[SkipWhitespace(s, i)])
    decreases |s| - i
  {
    if i < |s| && IsWhitespace(s[i]) {
      SkipWhitespaceRun(s, i + 1);
    }
  }

  /** The end of the longest run of word characters starting at `i`. */
  function SkipWord(s: string, i: nat): (j: nat)
    requires i <= |s|
    ensures i <= j <= |s|
    decreases |s| - i
  {
    if i < |s| && IsWordChar(s[i]) then SkipWord(s, i + 1) else i
  }

  /** SkipWord stops at the end of a run of word characters that cannot be extended. */
  lemma {:induction false} SkipWordRun(s: string, i: nat)
    requires i <= |s|
    ensures forall k :: i <= k < SkipWord(s, i) ==> IsWordChar(s[k])
    ensures SkipWord(s, i) == |s| || !IsWordChar(s[SkipWord(s, i)])
    decreases |s| - i
  {
    if i < |s| && IsWordChar(s[i]) {
      SkipWordRun(s, i + 1);
    }
  }

  predicate HasAt(s: string, i: nat, lit: string) {
    i + |lit| <= |s| && s[i..i + |lit|] == lit
  }

  /** Past the visibility keyword at `i`, if there is one. */
  function SkipVisibility(s: string, i: nat): (j: nat)
    requires i <= |s|
    ensures i <= j <= |s|
  {
    if HasAt(s, i, "public") then i + 6
    else if HasAt(s, i, "private") then i + 7
    else if HasAt(s, i, "protected") then i + 9
    else i
  }

  /** What SkipVisibility skips is one of the alternatives of the optional group. */
  lemma SkipVisibilitySkips(s: string, i: nat)
    requires i <= |s|
    ensures IsVisibility(s[i..SkipVisibility(s, i)])
  {
  }

  /** Where `function` must start: past the leading whitespace, the optional keyword and more whitespace. */
  function KeywordStart(line: string): (c: nat)
    ensures c <= |line|
  {
    SkipWhitespace(line, SkipVisibility(line, SkipWhitespace(line, 0)))
  }

  /**
   * The rest of the pattern from `i`, just after "function": whitespace,
   * the captured name, whitespace, "(" and a rest on one line.
   */
  function MatchName(line: string, i: nat): (r: Option<string>)
    requires i <= |line|
    ensures r.Some? ==> IsIdentifier(r.value)
  {
    var d := SkipWhitespace(line, i);
    var e := SkipWord(line, d);
    var f := SkipWhitespace(line, e);
    if d < e && f < |line| && line[f] == '(' && OnOneLine(line[f + 1..]) then
      SkipWordRun(line, d);
      assert IsIdentifier(line[d..e]) by {
        forall k | 0 <= k < e - d ensures IsWordChar(line[d..e][k]) { assert line[d..e][k] == line[d + k]; }
      }
      Some(line[d..e])
    else None
  }

  /**
   * The capture group of the pattern on `line`, or None when the line does
   * not match.  The groups of the pattern are matched in turn; each `\s*`
   * and the `\w+` take the longest run, which is the only run that can be
   * followed by what comes next.
   */
  function MatchDeclaration(line: string): (r: Option<string>)
    ensures r.Some? ==> IsIdentifier(r.value)
  {
    var c := KeywordStart(line);
    if HasAt(line, c, "function") then MatchName(line, c + 8) else None
  }

  /** Any other run with the same two properties is the one SkipWhitespace finds. */
  lemma {:induction false} SkipWhitespaceIs(s: string, i: nat, j: nat)
    requires i <= j <= |s|
    requires forall k :: i <= k < j ==> IsWhitespace(s[k])
    requires j == |s| || !IsWhitespace(s[j])
    ensures SkipWhitespace(s, i) == j
    decreases j - i
  {
    if i < j {
      SkipWhitespaceIs(s, i + 1, j);
    }
  }

  /** Any other run with the same two properties is the one SkipWord finds. */
  lemma {:induction false} SkipWordIs(s: string, i: nat, j: nat)
    requires i <= j <= |s|
    requires forall k :: i <= k < j ==> IsWordChar(s[k])
    requires j == |s| || !IsWordChar(s[j])
    ensures SkipWord(s, i) == j
    decreases j - i
  {
    if i < j {
      SkipWordIs(s, i + 1, j);
    }
  }

  /** A literal is not at `i` when one of its characters differs. */
  lemma NotAt(s: string, i: nat, lit: string, k: nat)
    requires k < |lit| && i + k < |s| && s[i + k] != lit[k]
    ensures !HasAt(s, i, lit)
  {
  }

  /** A range of whitespace, stated as a slice. */
  lemma WhitespaceSlice(line: string, i: nat, j: nat)
    requires i <= j <= |line| && forall k :: i <= k < j ==> IsWhitespace(line[k])
    ensures AllWhitespace(line[i..j])
  {
  }

  /** Whitespace ranges, stated per index. */
  lemma WhitespaceRange(line: string, i: nat, j: nat)
    requires i <= j <= |line| && AllWhitespace(line[i..j])
    ensures forall k :: i <= k < j ==> IsWhitespace(line[k])
  {
    forall k | i <= k < j ensures IsWhitespace(line[k]) { assert line[k] == line[i..j][k - i]; }
  }

  /**
   * The first pieces of the pattern: whitespace up to p0, the optional
   * keyword up to p1, whitespace up to p2, and "function" from p2.
   */
  ghost predicate PrefixAt(line: string, p0: nat, p1: nat, p2: nat) {
    p0 <= p1 <= p2 && p2 + 8 <= |line| &&
    AllWhitespace(line[..p0]) && IsVisibility(line[p0..p1]) && AllWhitespace(line[p1..p2]) &&
    line[p2..p2 + 8] == "function"
  }

  /** "function" starts at p2, preceded by what the pattern allows. */
  ghost predicate KeywordAt(line: string, p2: nat) {
    exists p0: nat, p1: nat :: PrefixAt(line, p0, p1, p2)
  }

  /**
   * The last pieces of the pattern from p3: whitespace up to p4, the captured
   * name from p4 to p5, whitespace up to p6, the opening parenthesis at p6,
   * and a rest without line terminators.
   */
  ghost predicate NameAt(line: string, p3: nat, p4: nat, p5: nat, p6: nat) {
    p3 <= p4 <= p5 <= p6 < |line| &&
    AllWhitespace(line[p3..p4]) && IsIdentifier(line[p4..p5]) && AllWhitespace(line[p5..p6]) &&
    line[p6] == '(' && OnOneLine(line[p6 + 1..])
  }

  /** From p3 on, the line is the rest of the pattern with `name` captured. */
  ghost predicate NameFrom(line: string, p3: nat, name: string) {
    exists p4: nat, p5: nat, p6: nat :: NameAt(line, p3, p4, p5, p6) && line[p4..p5] == name
  }

  /** `line` matches the pattern and its capture group is `name`. */
  ghost predicate Declares(line: string, name: string) {
    exists p2: nat :: KeywordAt(line, p2) && NameFrom(line, p2 + 8, name)
  }

  /** When "function" is found, the pieces before it are where the scan put them. */
  lemma PrefixSound(line: string)
    requires HasAt(line, KeywordStart(line), "function")
    ensures KeywordAt(line, KeywordStart(line))
  {
    var a := SkipWhitespace(line, 0);
    var b := SkipVisibility(line, a);
    SkipWhitespaceRun(line, 0);
    SkipWhitespaceRun(line, b);
    WhitespaceSlice(line, 0, a);
    WhitespaceSlice(line, b, KeywordStart(line));
    SkipVisibilitySkips(line, a);
    assert PrefixAt(line, a, b, KeywordStart(line));
  }

  /** A name found from `i` comes with the pieces of the rest of the pattern. */
  lemma NameSound(line: string, i: nat)
    requires i <= |line| && MatchName(line, i).Some?
    ensures NameFrom(line, i, MatchName(line, i).value)
  {
    var d := SkipWhitespace(line, i);
    var e := SkipWord(line, d);
    var f := SkipWhitespace(line, e);
    SkipWhitespaceRun(line, i);
    SkipWordRun(line, d);
    SkipWhitespaceRun(line, e);
    WhitespaceSlice(line, i, d);
    WhitespaceSlice(line, e, f);
    assert NameAt(line, i, d, e, f);
  }

  /** A successful match exhibits the decomposition the pattern describes. */
  lemma MatchSound(line: string)
    requires MatchDeclaration(line).Some?
    ensures Declares(line, MatchDeclaration(line).value)
  {
    var c := KeywordStart(line);
    MatchStages(line);
    PrefixSound(line);
    NameSound(line, c + 8);
    DeclaresIntro(line, c, MatchDeclaration(line).value);
  }

  /** The two stages of the matcher. */
  lemma MatchStages(line: string)
    ensures var c := KeywordStart(line);
      MatchDeclaration(line) == if HasAt(line, c, "function") then MatchName(line, c + 8) else None
  {
  }

  lemma DeclaresIntro(line: string, p2: nat, name: string)
    requires KeywordAt(line, p2) && NameFrom(line, p2 + 8, name)
    ensures Declares(line, name)
  {
  }

  /** The leading whitespace and the visibility keyword end where "function" starts. */
  lemma PrefixEndsAt(line: string, p0: nat, p1: nat, p2: nat)
    requires PrefixAt(line, p0, p1, p2)
    ensures KeywordStart(line) == p2
  {
    WhitespaceRange(line, 0, p0);
    WhitespaceRange(line, p1, p2);
    assert line[p2] == 'f' by { assert line[p2] == line[p2..p2 + 8][0]; }
    if p0 == p1 {
      ScanWithoutKeyword(line, p2);
    } else {
      ScanWithKeyword(line, p0, p1, p2);
    }
  }

  /** Without a keyword the leading whitespace runs up to the "f" of "function". */
  lemma ScanWithoutKeyword(line: string, p2: nat)
    requires p2 < |line| && line[p2] == 'f'
    requires forall k :: 0 <= k < p2 ==> IsWhitespace(line[k])
    ensures KeywordStart(line) == p2
  {
    SkipWhitespaceIs(line, 0, p2);
    NotAt(line, p2, "public", 0);
    NotAt(line, p2, "private", 0);
    NotAt(line, p2, "protected", 0);
    assert SkipVisibility(line, p2) == p2;
    SkipWhitespaceIs(line, p2, p2);
  }

  /** A keyword between whitespace runs is skipped whole. */
  lemma ScanWithKeyword(line: string, p0: nat, p1: nat, p2: nat)
    requires p0 < p1 <= p2 < |line| && line[p2] == 'f'
    requires forall k :: 0 <= k < p0 ==> IsWhitespace(line[k])
    requires line[p0..p1] == "public" || line[p0..p1] == "private" || line[p0..p1] == "protected"
    requires forall k :: p1 <= k < p2 ==> IsWhitespace(line[k])
    ensures KeywordStart(line) == p2
  {
    var kw := line[p0..p1];
    assert line[p0] == kw[0] by { assert line[p0..p1][0] == line[p0]; }
    SkipWhitespaceIs(line, 0, p0);
    assert line[p0 + 1] == kw[1] by { assert line[p0..p1][1] == line[p0 + 1]; }
    assert line[p0 + 2] == kw[2] by { assert line[p0..p1][2] == line[p0 + 2]; }
    if kw == "public" {
      assert HasAt(line, p0, "public");
    } else if kw == "private" {
      NotAt(line, p0, "public", 1);
      assert HasAt(line, p0, "private");
    } else {
      NotAt(line, p0, "public", 1);
      NotAt(line, p0, "private", 2);
      assert HasAt(line, p0, "protected");
    }
    assert SkipVisibility(line, p0) == p1;
    SkipWhitespaceIs(line, p1, p2);
  }

  /** Wherever the pattern puts "function", the scan finds it there. */
  lemma KeywordFound(line: string, p2: nat)
    requires KeywordAt(line, p2)
    ensures KeywordStart(line) == p2 && HasAt(line, p2, "function")
  {
    var p0: nat, p1: nat :| PrefixAt(line, p0, p1, p2);
    PrefixEndsAt(line, p0, p1, p2);
  }

  /** The name and the whitespace around it end where the pieces say. */
  lemma NameEndsAt(line: string, p3: nat, p4: nat, p5: nat, p6: nat)
    requires NameAt(line, p3, p4, p5, p6)
    ensures MatchName(line, p3) == Some(line[p4..p5])
  {
    WhitespaceRange(line, p3, p4);
    WhitespaceRange(line, p5, p6);
    assert forall k :: p4 <= k < p5 ==> IsWordChar(line[k]) by {
      forall k | p4 <= k < p5 ensures IsWordChar(line[k]) { assert line[k] == line[p4..p5][k - p4]; }
    }
    SkipWhitespaceIs(line, p3, p4);
    if p5 < p6 { assert IsWhitespace(line[p5]); }
    SkipWordIs(line, p4, p5);
    SkipWhitespaceIs(line, p5, p6);
  }

  /** Whatever name the rest of the pattern captures, the scan captures it. */
  lemma NameFound(line: string, p3: nat, name: string)
    requires NameFrom(line, p3, name)
    ensures p3 <= |line| && MatchName(line, p3) == Some(name)
  {
    var p4: nat, p5: nat, p6: nat :| NameAt(line, p3, p4, p5, p6) && line[p4..p5] == name;
    NameEndsAt(line, p3, p4, p5, p6);
  }

  /** A line the pattern describes is matched, with the described capture. */
  lemma MatchComplete(line: string, name: string)
    requires Declares(line, name)
    ensures MatchDeclaration(line) == Some(name)
  {
    var p2: nat :| KeywordAt(line, p2) && NameFrom(line, p2 + 8, name);
    KeywordFound(line, p2);
    NameFound(line, p2 + 8, name);
  }

  /** The matcher decides exactly the pattern's language, capture included. */
  lemma MatchDeclarationCorrect(line: string, name: string)
    ensures MatchDeclaration(line) == Some(name) <==> Declares(line, name)
  {
    if MatchDeclaration(line) == Some(name) { MatchSound(line); }
    if Declares(line, name) { MatchComplete(line, name); }
  }

  /** `line` matches the pattern, whatever it captures. */
  ghost predicate IsDeclaration(line: string) {
    exists name :: Declares(line, name)
  }

  /** The matcher finds something exactly on the lines the pattern matches. */
  lemma DeclarationMatched(line: string)
    ensures MatchDeclaration(line).Some? <==> IsDeclaration(line)
  {
    if MatchDeclaration(line).Some? {
      MatchSound(line);
    }
    if IsDeclaration(line) {
      var name :| Declares(line, name);
      MatchComplete(line, name);
    }
  }
}
