/**
 * `String.prototype.trim` as both front ends use it to reject blank input:
 * leading and trailing white space and line terminators (the WhiteSpace and
 * LineTerminator productions of ECMAScript) are removed.
 */
module JsText {

  /** A character `trim` strips: WhiteSpace (including the Zs category and U+FEFF) or a LineTerminator. */
  predicate IsJsSpace(c: char) {
    || c == '\t' || c == '\n' || c == '\U{000B}' || c == '\U{000C}' || c == '\r' || c == ' '
    || c == '\U{00A0}' || c == '\U{1680}' || ('\U{2000}' <= c <= '\U{200A}')
    || c == '\U{2028}' || c == '\U{2029}' || c == '\U{202F}' || c == '\U{205F}'
    || c == '\U{3000}' || c == '\U{FEFF}'
  }

  /** Every character of `s` is one `trim` strips. */
  ghost predicate Blank(s: string) {
    forall k :: 0 <= k < |s| ==> IsJsSpace(s[k])
  }

  /** `s` without its leading white space: a suffix of `s` that is empty or starts with a non-space. */
  function TrimStart(s: string): (r: string)
    ensures |r| <= |s| && r == s[|s| - |r|..]
    ensures Blank(s[..|s| - |r|])
    ensures r == [] || !IsJsSpace(r[0])
    ensures r == [] <==> Blank(s)
  {
    if s != [] && IsJsSpace(s[0]) then
      var r := TrimStart(s[1..]);
      TrimStartStep(s, r);
      r
    else
      TrimStartStop(s);
      s
  }

  /** Text that is empty or starts with a non-space has no leading white space to remove. */
  lemma TrimStartStop(s: string)
    requires s == [] || !IsJsSpace(s[0])
    ensures Blank(s[..0])
    ensures s == [] <==> Blank(s)
  {
    assert |s[..0]| == 0;
  }

  /** What `TrimStart` promises of `s[1..]` it promises of `s` when `s` starts with white space. */
  lemma TrimStartStep(s: string, r: string)
    requires s != [] && IsJsSpace(s[0])
    requires |r| <= |s| - 1 && r == s[1..][|s| - 1 - |r|..]
    requires Blank(s[1..][..|s| - 1 - |r|])
    requires r == [] <==> Blank(s[1..])
    ensures |r| <= |s| && r == s[|s| - |r|..]
    ensures Blank(s[..|s| - |r|])
    ensures r == [] <==> Blank(s)
  {
    var m := |s| - |r|;
    assert s[1..][m - 1..] == s[m..];
    assert s[1..][..m - 1] == s[..m][1..];
    BlankCons(s);
    BlankCons(s[..m]);
  }

  /** A non-empty text is blank exactly when its first character is white space and the rest is blank. */
  lemma BlankCons(s: string)
    ensures s != [] ==> (Blank(s) <==> IsJsSpace(s[0]) && Blank(s[1..]))
  {
    if s != [] && IsJsSpace(s[0]) && Blank(s[1..]) {
      forall k | 0 <= k < |s| ensures IsJsSpace(s[k]) {
        if k > 0 {
          assert s[k] == s[1..][k - 1];
        }
      }
    }
  }

  /** A non-empty text is blank exactly when its last character is white space and the rest is blank. */
  lemma BlankSnoc(s: string)
    ensures s != [] ==> (Blank(s) <==> IsJsSpace(s[|s| - 1]) && Blank(s[..|s| - 1]))
  {
    if s != [] && IsJsSpace(s[|s| - 1]) && Blank(s[..|s| - 1]) {
      forall k | 0 <= k < |s| ensures IsJsSpace(s[k]) {
        if k < |s| - 1 {
          assert s[k] == s[..|s| - 1][k];
        }
      }
    }
  }

  /** `s` without its trailing white space: a prefix of `s` that is empty or ends with a non-space. */
  function TrimEnd(s: string): (r: string)
    ensures |r| <= |s| && r == s[..|r|]
    ensures Blank(s[|r|..])
    ensures r == [] || !IsJsSpace(r[|r| - 1])
    ensures r == [] <==> Blank(s)
  {
    if s != [] && IsJsSpace(s[|s| - 1]) then
      var r := TrimEnd(s[..|s| - 1]);
      TrimEndStep(s, r);
      r
    else
      TrimEndStop(s);
      s
  }

  /** Text that is empty or ends with a non-space has no trailing white space to remove. */
  lemma TrimEndStop(s: string)
    requires s == [] || !IsJsSpace(s[|s| - 1])
    ensures Blank(s[|s|..])
    ensures s == [] <==> Blank(s)
  {
    assert |s[|s|..]| == 0;
  }

  /** What `TrimEnd` promises of `s[..|s| - 1]` it promises of `s` when `s` ends with white space. */
  lemma TrimEndStep(s: string, r: string)
    requires s != [] && IsJsSpace(s[|s| - 1])
    requires |r| <= |s| - 1 && r == s[..|s| - 1][..|r|]
    requires Blank(s[..|s| - 1][|r|..])
    requires r == [] <==> Blank(s[..|s| - 1])
    ensures |r| <= |s| && r == s[..|r|]
    ensures Blank(s[|r|..])
    ensures r == [] <==> Blank(s)
  {
    assert s[|r|..] == s[..|s| - 1][|r|..] + [s[|s| - 1]];
    BlankSnoc(s);
    BlankSnoc(s[|r|..]);
    assert s[|r|..][..|s[|r|..]| - 1] == s[..|s| - 1][|r|..];
  }

  /** `s.trim()`. */
  function Trim(s: string): string {
    TrimEnd(TrimStart(s))
  }

  /**
   * `!s.trim()` holds exactly when `s` is blank; otherwise the trimmed text is a
   * slice of `s` with a non-space at each end and only white space cut off.
   */
  lemma TrimCharacterised(s: string)
    ensures Trim(s) == [] <==> Blank(s)
    ensures Trim(s) != [] ==>
              exists i, j :: 0 <= i < j <= |s| && Trim(s) == s[i..j] && Blank(s[..i]) && Blank(s[j..]) &&
                             !IsJsSpace(s[i]) && !IsJsSpace(s[j - 1])
  {
    TrimBlank(s);
    if Trim(s) != [] {
      var i, j := TrimSlice(s);
    }
  }

  /** Trimming leaves nothing exactly when the text is blank. */
  lemma TrimBlank(s: string)
    ensures Trim(s) == [] <==> Blank(s)
  {
    var a := TrimStart(s);
    if a != [] {
      assert !IsJsSpace(a[0]);
      assert !Blank(a);
    }
  }

  /** Where the trimmed text sits in a text that is not blank. */
  lemma TrimSlice(s: string) returns (i: int, j: int)
    requires Trim(s) != []
    ensures 0 <= i < j <= |s| && Trim(s) == s[i..j] && Blank(s[..i]) && Blank(s[j..])
    ensures !IsJsSpace(s[i]) && !IsJsSpace(s[j - 1])
  {
    var a := TrimStart(s);
    var b := TrimEnd(a);
    i := |s| - |a|;
    j := i + |b|;
    assert s[i..j] == a[..|b|] == b;
    assert s[j..] == a[|b|..];
    assert s[i] == a[0] == b[0];
    assert s[j - 1] == b[|b| - 1];
  }
}
