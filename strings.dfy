/**
  The two string operations of JavaScript that the reader relies on:
  `String.prototype.trim` (used on the submitted URL) and a suffix test
  (what the `/.*\.rss$/` pattern of the validation schema amounts to).
 */
module Strings {

  /** The code points ECMAScript's `trim` strips: its WhiteSpace and LineTerminator sets. */
  predicate IsJsSpace(c: char) {
    || c == '\t' || c == '\n' || c == '\U{000B}' || c == '\U{000C}' || c == '\r' || c == ' '
    || c == '\U{00A0}' || c == '\U{1680}' || ('\U{2000}' <= c <= '\U{200A}')
    || c == '\U{2028}' || c == '\U{2029}' || c == '\U{202F}' || c == '\U{205F}'
    || c == '\U{3000}' || c == '\U{FEFF}'
  }

  ghost predicate AllSpaces(s: string) {
    forall i :: 0 <= i < |s| ==> IsJsSpace(s[i])
  }

  /** No white space at either end: what `trim` leaves behind. */
  ghost predicate Trimmed(s: string) {
    s == [] || (!IsJsSpace(s[0]) && !IsJsSpace(s[|s| - 1]))
  }

  /** The end of the run of white space that starts at `i`. */
  function SkipLeading(s: string, i: nat): (n: nat)
    requires i <= |s|
    ensures i <= n <= |s|
    ensures forall k :: i <= k < n ==> IsJsSpace(s[k])
    ensures n == |s| || !IsJsSpace(s[n])
    decreases |s| - i
  {
    if i < |s| && IsJsSpace(s[i]) then SkipLeading(s, i + 1) else i
  }

  /** The start of the run of white space that ends at `j`, looking no further back than `lo`. */
  function SkipTrailing(s: string, lo: nat, j: nat): (n: nat)
    requires lo <= j <= |s|
    ensures lo <= n <= j
    ensures forall k :: n <= k < j ==> IsJsSpace(s[k])
    ensures n == lo || !IsJsSpace(s[n - 1])
  {
    if lo < j && IsJsSpace(s[j - 1]) then SkipTrailing(s, lo, j - 1) else j
  }

  /** `s.trim()`: `s` with white space removed from both ends. */
  function Trim(s: string): (r: string)
    ensures Trimmed(r)
  {
    var a := SkipLeading(s, 0);
    s[a..SkipTrailing(s, a, |s|)]
  }

  /** What `trim` drops is white space at the two ends, nothing else. */
  lemma TrimDropsOnlyPadding(s: string)
    ensures var r := Trim(s);
      exists i :: 0 <= i <= |s| - |r| && s[i..i + |r|] == r && AllSpaces(s[..i]) && AllSpaces(s[i + |r|..])
  {
    var a := SkipLeading(s, 0);
    var e := SkipTrailing(s, a, |s|);
    assert Trim(s) == s[a..e];
    assert s[a..a + (e - a)] == s[a..e];
    assert AllSpaces(s[..a]) by {
      forall k | 0 <= k < a ensures IsJsSpace(s[..a][k]) {
        assert s[..a][k] == s[k];
      }
    }
    assert AllSpaces(s[e..]) by {
      forall k | 0 <= k < |s| - e ensures IsJsSpace(s[e..][k]) {
        assert s[e..][k] == s[e + k];
      }
    }
  }

  lemma {:induction false} SkipLeadingOf(s: string, i: nat, n: nat)
    requires i <= n <= |s|
    requires forall k :: i <= k < n ==> IsJsSpace(s[k])
    requires n == |s| || !IsJsSpace(s[n])
    ensures SkipLeading(s, i) == n
    decreases n - i
  {
    if i < n {
      SkipLeadingOf(s, i + 1, n);
    }
  }

  lemma {:induction false} SkipTrailingOf(s: string, lo: nat, j: nat, n: nat)
    requires lo <= n <= j <= |s|
    requires forall k :: n <= k < j ==> IsJsSpace(s[k])
    requires n == lo || !IsJsSpace(s[n - 1])
    ensures SkipTrailing(s, lo, j) == n
    decreases j - n
  {
    if n < j {
      SkipTrailingOf(s, lo, j - 1, n);
    }
  }

  /** `trim` removes exactly the padding: a trimmed core surrounded by white space comes back unchanged. */
  lemma TrimOfPadded(pre: string, core: string, post: string)
    requires AllSpaces(pre) && AllSpaces(post) && Trimmed(core)
    ensures Trim(pre + core + post) == core
  {
    var s := pre + core + post;
    var a, e := |pre|, |pre| + |core|;
    forall k | 0 <= k < a ensures IsJsSpace(s[k]) {
      assert s[k] == pre[k];
    }
    forall k | e <= k < |s| ensures IsJsSpace(s[k]) {
      assert s[k] == post[k - e];
    }
    if core == [] {
      SkipLeadingOf(s, 0, |s|);
      SkipTrailingOf(s, |s|, |s|, |s|);
    } else {
      assert s[a] == core[0] && s[e - 1] == core[|core| - 1];
      SkipLeadingOf(s, 0, a);
      SkipTrailingOf(s, a, |s|, e);
      assert s[a..e] == core;
    }
  }

  /** Trimming twice is trimming once. */
  lemma TrimIdempotent(s: string)
    ensures Trim(Trim(s)) == Trim(s)
  {
    var r := Trim(s);
    assert r == [] + r + [];
    TrimOfPadded([], r, []);
  }

  /** An input made of white space only trims to the empty string. */
  lemma TrimAllSpaces(s: string)
    requires AllSpaces(s)
    ensures Trim(s) == []
  {
    assert s == s + [] + [];
    TrimOfPadded(s, [], []);
  }

  /** `s` ends with `suffix`. */
  predicate EndsWith(s: string, suffix: string) {
    |suffix| <= |s| && s[|s| - |suffix|..] == suffix
  }
}
