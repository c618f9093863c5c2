/** The ECMAScript string operations that the browser-side logger uses:
    `indexOf`, `includes` and `replace` with a string pattern, including the
    `$`-patterns that `replace` expands in its replacement string
    (GetSubstitution, section 22.1.3.19.1 of ECMA-262). */
module JsText {

  /** `pat` occurs in `s` starting at index `j`. */
  predicate MatchAt(s: string, pat: string, j: int) {
    0 <= j && j + |pat| <= |s| && s[j..j + |pat|] == pat
  }

  /** No occurrence of `pat` in `s` starts before index `n`. */
  predicate NoMatchBefore(s: string, pat: string, n: int) {
    forall j :: 0 <= j < n ==> !MatchAt(s, pat, j)
  }

  lemma MatchAtTail(s: string, pat: string, k: int)
    requires |s| > 0 && k >= 0
    ensures MatchAt(s[1..], pat, k) <==> MatchAt(s, pat, k + 1)
  {
    if 0 <= k && k + |pat| <= |s| - 1 {
      assert s[1..][k..k + |pat|] == s[k + 1..k + 1 + |pat|];
    }
  }

  /** `s.indexOf(pat)`: the first index at which `pat` occurs, or -1. */
  function IndexOf(s: string, pat: string): (i: int)
    ensures -1 <= i
    ensures i >= 0 ==> MatchAt(s, pat, i) && NoMatchBefore(s, pat, i)
    ensures i == -1 ==> NoMatchBefore(s, pat, |s| + 1)
    decreases |s|
  {
    if |s| < |pat| then -1
    else if s[..|pat|] == pat then 0
    else
      var k := IndexOf(s[1..], pat);
      assert !MatchAt(s, pat, 0);
      forall j | 0 <= j < (if k >= 0 then k else |s| - 1) + 1
        ensures !MatchAt(s, pat, j)
      {
        if j > 0 { MatchAtTail(s, pat, j - 1); }
      }
      if k >= 0 then MatchAtTail(s, pat, k); k + 1 else -1
  }

  /** `s.includes(pat)`. */
  predicate Includes(s: string, pat: string) {
    IndexOf(s, pat) >= 0
  }

  lemma IndexOfIsUnique(s: string, pat: string, n: int)
    requires MatchAt(s, pat, n) && NoMatchBefore(s, pat, n)
    ensures IndexOf(s, pat) == n
  {
  }

  /** GetSubstitution for a string pattern (no capture groups): `$$` gives `$`,
      `$&` the matched text, `` $` `` the text before the match, `$'` the text
      after it; every other character is copied. */
  function GetSubstitution(matched: string, str: string, position: nat, template: string): string
    requires position <= |str|
    decreases |template|
  {
    if |template| == 0 then ""
    else if template[0] == '$' && |template| >= 2 && template[1] in "$&`'" then
      var refReplacement :=
        if template[1] == '$' then "$"
        else if template[1] == '&' then matched
        else if template[1] == '`' then str[..position]
        else str[if position + |matched| < |str| then position + |matched| else |str|..];
      refReplacement + GetSubstitution(matched, str, position, template[2..])
    else [template[0]] + GetSubstitution(matched, str, position, template[1..])
  }

  /** `s.replace(pat, replacement)`: only the first occurrence is replaced. */
  function Replace(s: string, pat: string, replacement: string): string {
    var i := IndexOf(s, pat);
    if i < 0 then s
    else s[..i] + GetSubstitution(pat, s, i, replacement) + s[i + |pat|..]
  }

  predicate DollarFree(s: string) {
    '$' !in s
  }

  predicate BraceFree(s: string) {
    '{' !in s
  }

  lemma {:induction false} SubstitutionOfDollarFree(matched: string, str: string, position: nat, template: string)
    requires position <= |str|
    requires DollarFree(template)
    ensures GetSubstitution(matched, str, position, template) == template
    decreases |template|
  {
    if |template| > 0 {
      assert template[0] != '$';
      assert DollarFree(template[1..]) by { assert forall c :: c in template[1..] ==> c in template; }
      SubstitutionOfDollarFree(matched, str, position, template[1..]);
      assert template == [template[0]] + template[1..];
    }
  }

  /** A replacement absent from the string leaves it unchanged. */
  lemma ReplaceAbsent(s: string, pat: string, replacement: string)
    requires !Includes(s, pat)
    ensures Replace(s, pat, replacement) == s
  {
  }

  /** Every `{` in `a` is followed, inside `a`, by a character other than the
      second character of the placeholder `pat`; so no occurrence of `pat` can
      start in `a`, whatever follows it. */
  predicate CleanFor(a: string, pat: string)
    requires |pat| >= 2
  {
    forall j :: 0 <= j < |a| && a[j] == '{' ==> j + 1 < |a| && a[j + 1] != pat[1]
  }

  lemma BraceFreeIsClean(a: string, pat: string)
    requires |pat| >= 2 && BraceFree(a)
    ensures CleanFor(a, pat)
  {
  }

  lemma {:induction false} CleanConcat(x: string, y: string, pat: string)
    requires |pat| >= 2 && CleanFor(x, pat) && CleanFor(y, pat)
    ensures CleanFor(x + y, pat)
  {
    var s := x + y;
    forall j | 0 <= j < |s| && s[j] == '{'
      ensures j + 1 < |s| && s[j + 1] != pat[1]
    {
      if j < |x| {
        assert x[j] == '{';
        assert s[j + 1] == x[j + 1];
      } else {
        assert y[j - |x|] == '{';
        assert s[j + 1] == y[j - |x| + 1];
      }
    }
  }

  lemma NoMatchWhenCharsDiffer(s: string, pat: string, j: int)
    requires |pat| >= 2 && 0 <= j
    requires j < |s| ==> s[j] != pat[0] || (j + 1 < |s| && s[j + 1] != pat[1])
    ensures !MatchAt(s, pat, j)
  {
    if j + |pat| <= |s| {
      assert s[j..j + |pat|][0] == s[j];
      assert s[j..j + |pat|][1] == s[j + 1];
    }
  }

  /** Replacing a placeholder whose first occurrence follows a clean prefix `a`
      splices the substituted replacement in at that point. */
  lemma {:induction false} ReplaceAfterClean(a: string, pat: string, b: string, replacement: string)
    requires |pat| >= 2 && pat[0] == '{' && CleanFor(a, pat)
    ensures Replace(a + pat + b, pat, replacement)
         == a + GetSubstitution(pat, a + pat + b, |a|, replacement) + b
  {
    var s := a + pat + b;
    assert MatchAt(s, pat, |a|) by { assert s[|a|..|a| + |pat|] == pat; }
    forall j | 0 <= j < |a|
      ensures !MatchAt(s, pat, j)
    {
      assert s[j] == a[j];
      if a[j] == '{' { assert s[j + 1] == a[j + 1]; }
      NoMatchWhenCharsDiffer(s, pat, j);
    }
    IndexOfIsUnique(s, pat, |a|);
    assert s[..|a|] == a;
    assert s[|a| + |pat|..] == b;
  }

  /** The same, when the replacement holds no `$`. */
  lemma ReplaceAfterCleanLiteral(a: string, pat: string, b: string, replacement: string)
    requires |pat| >= 2 && pat[0] == '{' && CleanFor(a, pat) && DollarFree(replacement)
    ensures Replace(a + pat + b, pat, replacement) == a + replacement + b
  {
    ReplaceAfterClean(a, pat, b, replacement);
    SubstitutionOfDollarFree(pat, a + pat + b, |a|, replacement);
  }
}
