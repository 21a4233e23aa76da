/** The part of JavaScript's string semantics the bridge relies on:
    `String.prototype.trim`. */
module JsText {

  /** ECMAScript WhiteSpace and LineTerminator code points: tab, line feed,
      vertical tab, form feed, carriage return, the space separators (Zs),
      the line and paragraph separators, and the byte order mark. */
  predicate IsWhiteSpace(c: char) {
    var n := c as int;
    || n == 0x09 || n == 0x0A || n == 0x0B || n == 0x0C || n == 0x0D
    || n == 0x20 || n == 0xA0 || n == 0x1680
    || (0x2000 <= n <= 0x200A)
    || n == 0x2028 || n == 0x2029 || n == 0x202F || n == 0x205F
    || n == 0x3000 || n == 0xFEFF
  }

  /** Every character of `s` is white space (the empty string included). */
  predicate IsBlank(s: string) {
    forall i :: 0 <= i < |s| ==> IsWhiteSpace(s[i])
  }

  /** `s` is `m`, starting at index `i`, with blank text before and after. */
  predicate BlankAround(s: string, i: int, m: string) {
    0 <= i <= |s| - |m| && m == s[i..i + |m|] && IsBlank(s[..i]) && IsBlank(s[i + |m|..])
  }

  /** Drops leading white space: the result is the suffix of `s` that starts
      at its first non-white-space character. */
  function TrimStart(s: string): (r: string)
    ensures |r| <= |s| && r == s[|s| - |r|..]
    ensures IsBlank(s[..|s| - |r|])
    ensures |r| > 0 ==> !IsWhiteSpace(r[0])
    decreases |s|
  {
    if |s| > 0 && IsWhiteSpace(s[0]) then TrimStart(s[1..]) else s
  }

  /** Drops trailing white space: the result is the prefix of `s` that ends
      at its last non-white-space character. */
  function TrimEnd(s: string): (r: string)
    ensures |r| <= |s| && r == s[..|r|]
    ensures IsBlank(s[|r|..])
    ensures |r| > 0 ==> !IsWhiteSpace(r[|r| - 1])
    decreases |s|
  {
    if |s| > 0 && IsWhiteSpace(s[|s| - 1]) then TrimEnd(s[..|s| - 1]) else s
  }

  /** `s.trim()`: the part of `s` left once the white space at both ends
      is cut off; it begins and ends with a non-white-space character, and
      it is empty exactly when `s` is blank. */
  function Trim(s: string): (r: string)
    ensures |r| <= |s|
    ensures exists i :: BlankAround(s, i, r)
    ensures |r| > 0 ==> !IsWhiteSpace(r[0]) && !IsWhiteSpace(r[|r| - 1])
    ensures r == "" <==> IsBlank(s)
  {
    TrimEmptyOnlyWhenBlank(s);
    TrimCutsWhiteSpaceEnds(s);
    TrimEnd(TrimStart(s))
  }

  /** Trimming keeps a middle part of `s` whose cut-off ends are blank. */
  lemma TrimCutsWhiteSpaceEnds(s: string)
    ensures BlankAround(s, |s| - |TrimStart(s)|, TrimEnd(TrimStart(s)))
  {
    var t := TrimStart(s);
    var r := TrimEnd(t);
    assert |t| <= |s| && t == s[|s| - |t|..];
    assert IsBlank(s[..|s| - |t|]);
    assert |r| <= |t| && r == t[..|r|];
    assert IsBlank(t[|r|..]);
    CutBothEnds(s, t, r);
  }

  /** Cutting a blank prefix off `s`, giving `t`, and then a blank suffix
      off `t`, giving `r`, leaves `r` as a middle part of `s`. */
  lemma CutBothEnds(s: string, t: string, r: string)
    requires |t| <= |s| && t == s[|s| - |t|..] && IsBlank(s[..|s| - |t|])
    requires |r| <= |t| && r == t[..|r|] && IsBlank(t[|r|..])
    ensures BlankAround(s, |s| - |t|, r)
  {
    SliceOfSuffix(s, |s| - |t|, |r|);
  }

  lemma SliceOfSuffix(s: string, i: nat, n: nat)
    requires i + n <= |s|
    ensures s[i..][..n] == s[i..i + n] && s[i..][n..] == s[i + n..]
  {
  }

  lemma TrimEmptyOnlyWhenBlank(s: string)
    ensures TrimEnd(TrimStart(s)) == "" <==> IsBlank(s)
  {
    var t := TrimStart(s);
    var r := TrimEnd(t);
    if r == "" {
      EmptyTrimEndMeansBlank(t);
      assert |t| == 0;
      assert s[..|s|] == s;
    } else {
      assert r[0] == t[0];
      assert t[0] == s[|s| - |t|];
    }
  }

  lemma EmptyTrimEndMeansBlank(t: string)
    requires TrimEnd(t) == ""
    ensures IsBlank(t)
  {
    assert t[0..] == t;
  }
}
