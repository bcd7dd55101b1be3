/** C strings under `strcmp`, and the common-prefix primitive that every pattern scan of
    the daemon is built on.

    A C string is a sequence of characters without the terminating NUL; reading one past
    the last character yields that NUL. */
module CStrings {

  type CStr = s: string | forall i :: 0 <= i < |s| ==> s[i] != '\0'

  /** The character at index `i`, with the terminator just past the end. */
  function At(s: CStr, i: nat): (c: char)
    requires i <= |s|
    ensures c == '\0' <==> i == |s|
  {
    if i < |s| then s[i] else '\0'
  }

  /** Length of the longest common prefix. */
  ghost function Lcp(a: string, b: string): (n: nat)
    ensures n <= |a| && n <= |b|
    ensures a[..n] == b[..n]
    ensures n < |a| && n < |b| ==> a[n] != b[n]
  {
    if a == "" || b == "" || a[0] != b[0] then 0
    else
      var n := Lcp(a[1..], b[1..]);
      assert a == [a[0]] + a[1..] && b == [b[0]] + b[1..];
      assert a[..n + 1] == [a[0]] + a[1..][..n] && b[..n + 1] == [b[0]] + b[1..][..n];
      1 + n
  }

  /** The three facts in the contract of `Lcp` determine it. */
  lemma LcpUnique(a: string, b: string, n: nat)
    requires n <= |a| && n <= |b|
    requires a[..n] == b[..n]
    requires n < |a| && n < |b| ==> a[n] != b[n]
    ensures n == Lcp(a, b)
  {
    var m := Lcp(a, b);
    assert forall i :: 0 <= i < m ==> a[..m][i] == b[..m][i];
    assert forall i :: 0 <= i < n ==> a[..n][i] == b[..n][i];
  }

  lemma LcpSymmetric(a: string, b: string)
    ensures Lcp(a, b) == Lcp(b, a)
  {
    LcpUnique(a, b, Lcp(b, a));
  }

  /** `strcmp(a, b) <= 0`: decided at the first position where the strings differ. */
  ghost predicate Leq(a: CStr, b: CStr) {
    var n := Lcp(a, b);
    At(a, n) <= At(b, n)
  }

  ghost predicate Less(a: CStr, b: CStr) {
    Leq(a, b) && a != b
  }

  ghost predicate IsPrefix(p: string, s: string) {
    |p| <= |s| && s[..|p|] == p
  }

  lemma LeqReflexive(a: CStr)
    ensures Leq(a, a)
  {
    LcpUnique(a, a, |a|);
  }

  lemma LeqTotal(a: CStr, b: CStr)
    ensures Leq(a, b) || Leq(b, a)
  {
    LcpSymmetric(a, b);
  }

  lemma LeqAntisymmetric(a: CStr, b: CStr)
    requires Leq(a, b) && Leq(b, a)
    ensures a == b
  {
    LcpSymmetric(a, b);
    var n := Lcp(a, b);
    assert At(a, n) == At(b, n);
    assert a == a[..n] && b == b[..n];
  }

  lemma LeqTransitive(a: CStr, b: CStr, c: CStr)
    requires Leq(a, b) && Leq(b, c)
    ensures Leq(a, c)
  {
    var m, n := Lcp(a, b), Lcp(b, c);
    var k := if m < n then m else n;
    assert a[..k] == a[..m][..k] == b[..m][..k] == b[..k];
    assert c[..k] == c[..n][..k] == b[..n][..k] == b[..k];
    if m < n {
      assert b[m] == b[..n][m] == c[..n][m] == c[m];
      if m < |a| { assert a[m] != b[m]; }
      LcpUnique(a, c, k);
    } else if n < m {
      assert a[n] == a[..m][n] == b[..m][n] == b[n];
      LcpUnique(a, c, k);
    } else {
      assert At(a, k) <= At(b, k) <= At(c, k);
      LcpUnique(a, c, k);
    }
  }

  /** Below `s`, the closer a key is to `s` the longer the prefix it shares with it. */
  lemma LcpMonotone(a: CStr, b: CStr, s: CStr)
    requires Leq(a, b) && Leq(b, s)
    ensures Lcp(a, s) <= Lcp(b, s)
  {
    var k, m := Lcp(a, s), Lcp(b, s);
    if m < k {
      assert a[m] == a[..k][m] == s[..k][m] == s[m];
      assert a[..m] == a[..k][..m] == s[..k][..m] == s[..m] == b[..m];
      assert At(b, m) < At(s, m);
      LcpUnique(a, b, m);
    }
  }

  lemma PrefixIsLcp(p: string, s: string)
    ensures IsPrefix(p, s) <==> Lcp(p, s) == |p|
  {
    assert p[..|p|] == p;
    if IsPrefix(p, s) {
      LcpUnique(p, s, |p|);
    }
  }

  /** A prefix of `s` never sorts after `s`. */
  lemma PrefixLeq(p: CStr, s: CStr)
    requires IsPrefix(p, s)
    ensures Leq(p, s)
  {
    PrefixIsLcp(p, s);
  }

  /** `ubus_strmatch_len`: the number of leading characters the strings share, and whether
      they are equal. */
  method StrMatchLen(s1: CStr, s2: CStr) returns (full: bool, len: nat)
    ensures len == Lcp(s1, s2)
    ensures full <==> s1 == s2
  {
    len := 0;
    while At(s1, len) == At(s2, len)
      invariant len <= |s1| && len <= |s2|
      invariant s1[..len] == s2[..len]
      decreases |s1| - len
    {
      if At(s1, len) == '\0' {
        assert s1 == s1[..len] && s2 == s2[..len];
        LcpUnique(s1, s2, len);
        return true, len;
      }
      len := len + 1;
    }
    LcpUnique(s1, s2, len);
    return false, len;
  }

  /** `strcmp(a, b) <= 0`, computed. */
  predicate NotAfter(a: CStr, b: CStr)
    ensures NotAfter(a, b) <==> Leq(a, b)
  {
    if a == "" then true
    else if b == "" || a[0] != b[0] then b != "" && a[0] < b[0]
    else
      assert Lcp(a, b) == 1 + Lcp(a[1..], b[1..]);
      NotAfter(a[1..], b[1..])
  }

  // ----- matching -----

  /** A key matches a name when it equals it, or when it is a wildcard prefix of it. */
  predicate Matches(key: CStr, partial: bool, name: CStr) {
    key == name || (partial && |key| <= |name| && name[..|key|] == key)
  }

  /** The test the scans make on the shared length. */
  lemma MatchByLength(key: CStr, partial: bool, name: CStr)
    ensures Matches(key, partial, name) <==> key == name || (partial && Lcp(name, key) == |key|)
  {
    LcpSymmetric(name, key);
    PrefixIsLcp(key, name);
  }

  /** A matching key never sorts after the name. */
  lemma MatchLeq(key: CStr, partial: bool, name: CStr)
    requires Matches(key, partial, name)
    ensures Leq(key, name)
  {
    if key == name { LeqReflexive(key); } else { PrefixLeq(key, name); }
  }

  /** The early exit of the scans is sound.  Along a sorted walk, once the shared prefix gets
      shorter, the walk has gone past the name and no later key can match. */
  lemma NoMatchAfterShrink(earlier: CStr, key: CStr, later: CStr, partial: bool, name: CStr)
    requires Leq(earlier, key) && Leq(key, later)
    requires Lcp(name, key) < Lcp(name, earlier)
    ensures !Matches(later, partial, name)
  {
    LcpSymmetric(name, earlier);
    LcpSymmetric(name, key);
    if Matches(later, partial, name) {
      MatchLeq(later, partial, name);
      LeqTransitive(key, later, name);
      LcpMonotone(earlier, key, name);
    }
  }

  /** A pattern text ends in `*` when it is a wildcard; the star is not part of the key. */
  function Key(pattern: CStr): (k: CStr)
    ensures pattern == if IsWildcard(pattern) then k + "*" else k
  {
    if IsWildcard(pattern) then pattern[..|pattern| - 1] else pattern
  }

  predicate IsWildcard(pattern: CStr)
    ensures IsWildcard(pattern) <==> exists k: string :: pattern == k + "*"
  {
    assert pattern != "" && pattern[|pattern| - 1] == '*' ==> pattern == pattern[..|pattern| - 1] + "*";
    pattern != "" && pattern[|pattern| - 1] == '*'
  }
}
