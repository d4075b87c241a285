/**
 * The few Python string operations the scanner relies on, written out with
 * their exact semantics: `str.startswith`, `str.endswith`, `str.replace`
 * (every non-overlapping occurrence, scanning left to right) and the slice
 * `s[:-n]`.
 */
module PyStr {

  predicate StartsWith(s: string, prefix: string) {
    |prefix| <= |s| && s[..|prefix|] == prefix
  }

  predicate EndsWith(s: string, suffix: string) {
    |suffix| <= |s| && s[|s| - |suffix|..] == suffix
  }

  /** `pat in s`: the pattern occurs somewhere in `s`. */
  predicate Occurs(s: string, pat: string)
    decreases |s|
  {
    StartsWith(s, pat) || (|s| > 0 && Occurs(s[1..], pat))
  }

  /** `s.replace(pat, rep)` for a non-empty pattern. */
  function ReplaceAll(s: string, pat: string, rep: string): string
    requires |pat| > 0
    decreases |s|
  {
    if StartsWith(s, pat) then rep + ReplaceAll(s[|pat|..], pat, rep)
    else if |s| == 0 then ""
    else [s[0]] + ReplaceAll(s[1..], pat, rep)
  }

  /** `s[:-n]` for n > 0: everything but the last n characters, "" when `s` is shorter. */
  function DropLast(s: string, n: nat): (r: string)
    requires n > 0
    ensures |r| == if |s| >= n then |s| - n else 0
    ensures r == s[..|r|]
  {
    if |s| >= n then s[..|s| - n] else ""
  }

  /** The last k characters of `p` equal its first k characters. */
  predicate Border(p: string, k: nat)
    requires k <= |p|
  {
    p[|p| - k..] == p[..k]
  }

  /** No two occurrences of `p` can overlap: `p` has no proper border. */
  predicate OverlapFree(p: string) {
    forall k: nat :: 0 < k < |p| ==> !Border(p, k)
  }

  lemma UsdtOverlapFree()
    ensures OverlapFree("USDT") && OverlapFree("_USDT")
  {
    forall k: nat | 0 < k < 4 ensures !Border("USDT", k) {
      assert "USDT"[4 - k..][k - 1] == 'T';
    }
    forall k: nat | 0 < k < 5 ensures !Border("_USDT", k) {
      assert "_USDT"[..k][0] == '_';
      assert "_USDT"[5 - k..][0] != '_';
    }
  }

  /** Replacing in `x + pat` replaces the trailing occurrence and nothing straddles it. */
  lemma {:induction false} ReplaceAllAppend(x: string, pat: string, rep: string)
    requires |pat| > 0 && OverlapFree(pat)
    ensures ReplaceAll(x + pat, pat, rep) == ReplaceAll(x, pat, rep) + rep
    decreases |x|
  {
    var s := x + pat;
    if |x| == 0 {
      assert s == pat;
      assert s[..|pat|] == pat;
      assert s[|pat|..] == "";
      assert ReplaceAll("", pat, rep) == "";
    } else if |x| >= |pat| {
      assert s[..|pat|] == x[..|pat|];
      if StartsWith(x, pat) {
        assert s[|pat|..] == x[|pat|..] + pat;
        ReplaceAllAppend(x[|pat|..], pat, rep);
      } else {
        assert s[1..] == x[1..] + pat;
        ReplaceAllAppend(x[1..], pat, rep);
      }
    } else {
      var k := |pat| - |x|;
      assert s[..|pat|][|x|..] == s[|x|..|pat|] == pat[..k];
      assert !Border(pat, k);
      assert !StartsWith(s, pat);
      assert !StartsWith(x, pat);
      assert s[1..] == x[1..] + pat;
      ReplaceAllAppend(x[1..], pat, rep);
    }
  }

  /** A string without the pattern is left as it is. */
  lemma {:induction false} ReplaceAllAbsent(x: string, pat: string, rep: string)
    requires |pat| > 0 && !Occurs(x, pat)
    ensures ReplaceAll(x, pat, rep) == x
    decreases |x|
  {
    if |x| > 0 {
      ReplaceAllAbsent(x[1..], pat, rep);
      assert x == [x[0]] + x[1..];
    }
  }

  /** An occurrence of `pre + pat` is an occurrence of `pat`. */
  lemma {:induction false} OccursSuffixOfPattern(x: string, pre: string, pat: string)
    requires Occurs(x, pre + pat)
    ensures Occurs(x, pat)
    decreases |x|
  {
    if StartsWith(x, pre + pat) {
      OccursFrom(x, |pre|, pat);
    } else {
      OccursSuffixOfPattern(x[1..], pre, pat);
    }
  }

  /** A match at offset `i` is an occurrence. */
  lemma {:induction false} OccursFrom(x: string, i: nat, pat: string)
    requires i + |pat| <= |x| && x[i..i + |pat|] == pat
    ensures Occurs(x, pat)
    decreases i
  {
    if i == 0 {
      assert x[..|pat|] == pat;
    } else {
      assert x[1..][i - 1..i - 1 + |pat|] == pat;
      OccursFrom(x[1..], i - 1, pat);
    }
  }

  /** A pattern longer than the string does not occur in it. */
  lemma {:induction false} ShorterHasNoOccurrence(s: string, pat: string)
    requires |s| < |pat|
    ensures !Occurs(s, pat)
    decreases |s|
  {
    if |s| > 0 {
      ShorterHasNoOccurrence(s[1..], pat);
    }
  }
}
