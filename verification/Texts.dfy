/** SQL REPLACE over strings, and when it is a prefix rewrite. */
module Texts {
  predicate HasPrefix(s: string, p: string) {
    |p| <= |s| && s[..|p|] == p
  }

  /** REPLACE(s, pat, rep): every occurrence from the left, without overlaps. */
  function Replace(s: string, pat: string, rep: string): string
    requires pat != ""
  {
    if s == "" then ""
    else if HasPrefix(s, pat) then rep + Replace(s[|pat|..], pat, rep)
    else [s[0]] + Replace(s[1..], pat, rep)
  }

  predicate Occurs(s: string, pat: string) {
    exists i :: 0 <= i <= |s| && HasPrefix(s[i..], pat)
  }

  /** How many replacements REPLACE makes. */
  function Hits(s: string, pat: string): nat
    requires pat != ""
  {
    if s == "" then 0
    else if HasPrefix(s, pat) then 1 + Hits(s[|pat|..], pat)
    else Hits(s[1..], pat)
  }

  lemma {:induction false} LengthAfter(s: string, pat: string, rep: string)
    requires pat != ""
    ensures |Replace(s, pat, rep)| == |s| + Hits(s, pat) * (|rep| - |pat|)
  {
    if s == "" {
    } else if HasPrefix(s, pat) {
      LengthAfter(s[|pat|..], pat, rep);
      assert (1 + Hits(s[|pat|..], pat)) * (|rep| - |pat|) == (|rep| - |pat|) + Hits(s[|pat|..], pat) * (|rep| - |pat|);
    } else {
      LengthAfter(s[1..], pat, rep);
    }
  }

  lemma {:induction false} HitsOccur(s: string, pat: string)
    requires pat != ""
    ensures Occurs(s, pat) <==> Hits(s, pat) > 0
  {
    if s == "" {
    } else if HasPrefix(s, pat) {
      assert s[0..] == s;
    } else {
      HitsOccur(s[1..], pat);
      if Occurs(s[1..], pat) {
        var i :| 0 <= i <= |s[1..]| && HasPrefix(s[1..][i..], pat);
        assert s[i + 1..] == s[1..][i..];
      }
      if Occurs(s, pat) {
        var i :| 0 <= i <= |s| && HasPrefix(s[i..], pat);
        assert s[0..] == s;
        assert s[1..][i - 1..] == s[i..];
      }
    }
  }

  lemma {:induction false} NoHitsNoChange(s: string, pat: string, rep: string)
    requires pat != "" && Hits(s, pat) == 0
    ensures Replace(s, pat, rep) == s
  {
    if s != "" {
      NoHitsNoChange(s[1..], pat, rep);
      assert [s[0]] + s[1..] == s;
    }
  }

  lemma {:induction false} HitsChange(s: string, pat: string, rep: string)
    requires pat != "" && rep != pat && Hits(s, pat) > 0
    ensures Replace(s, pat, rep) != s
  {
    if |rep| != |pat| {
      LengthAfter(s, pat, rep);
      NonZeroProduct(Hits(s, pat), |rep| - |pat|);
    } else if HasPrefix(s, pat) {
      assert Replace(s, pat, rep)[..|pat|] == rep;
    } else {
      HitsChange(s[1..], pat, rep);
      assert Replace(s, pat, rep)[1..] == Replace(s[1..], pat, rep);
    }
  }

  lemma NonZeroProduct(a: int, b: int)
    requires a > 0 && b != 0
    ensures a * b != 0
  {
  }

  /** MAIN RESULT. On a string that starts with the pattern, REPLACE rewrites the
      prefix and nothing else exactly when the pattern does not occur again in
      what follows it (or is replaced by itself). */
  lemma ReplaceIsPrefixRewrite(rest: string, pat: string, rep: string)
    requires pat != ""
    ensures Replace(pat + rest, pat, rep) == rep + rest <==> rep == pat || !Occurs(rest, pat)
  {
    var s := pat + rest;
    assert s[|pat|..] == rest;
    assert Replace(s, pat, rep) == rep + Replace(rest, pat, rep);
    HitsOccur(rest, pat);
    if Hits(rest, pat) == 0 {
      NoHitsNoChange(rest, pat, rep);
    } else if rep != pat {
      HitsChange(rest, pat, rep);
      assert (rep + Replace(rest, pat, rep))[|rep|..] == Replace(rest, pat, rep);
      assert (rep + rest)[|rep|..] == rest;
    } else {
      ReplaceBySame(rest, pat);
    }
  }

  lemma {:induction false} ReplaceBySame(s: string, pat: string)
    requires pat != ""
    ensures Replace(s, pat, pat) == s
  {
    if s == "" {
    } else if HasPrefix(s, pat) {
      ReplaceBySame(s[|pat|..], pat);
      assert pat + s[|pat|..] == s;
    } else {
      ReplaceBySame(s[1..], pat);
      assert [s[0]] + s[1..] == s;
    }
  }
}
