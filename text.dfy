/**
 * Whitespace trimming as the guestbook uses it (Go's strings.TrimSpace).
 * Strings are sequences of Unicode code points; every property below holds
 * for any choice of the whitespace predicate IsSpace; only the ASCII fact stated on
 * IsSpace itself is about Go's particular set.
 */
module Text {

  /**
   * Go's unicode.IsSpace: the Latin-1 spaces and the Unicode White_Space set. On ASCII it
   * is exactly the six characters of strings.TrimSpace's fast path.
   */
  predicate IsSpace(c: char)
    ensures c <= '\U{007F}' ==> (IsSpace(c) <==> c in {'\t', '\n', '\U{000B}', '\U{000C}', '\r', ' '})
  {
    c == '\t' || c == '\n' || c == '\U{000B}' || c == '\U{000C}' || c == '\r' || c == ' ' ||
    c == '\U{0085}' || c == '\U{00A0}' || c == '\U{1680}' ||
    ('\U{2000}' <= c <= '\U{200A}') ||
    c == '\U{2028}' || c == '\U{2029}' || c == '\U{202F}' || c == '\U{205F}' || c == '\U{3000}'
  }

  /** Every character of s is whitespace (true of the empty string). */
  ghost predicate AllSpace(s: string)
  {
    forall k :: 0 <= k < |s| ==> IsSpace(s[k])
  }

  /** s neither starts nor ends with whitespace. */
  ghost predicate Trimmed(s: string)
  {
    s == [] || (!IsSpace(s[0]) && !IsSpace(s[|s| - 1]))
  }

  /**
   * The forward scan of strings.TrimSpace: the first position at or after i that holds
   * no whitespace, or |s| if there is none.
   */
  function SkipSpace(s: string, i: nat): (j: nat)
    requires i <= |s|
    ensures i <= j <= |s|
    ensures forall k :: i <= k < j ==> IsSpace(s[k])
    ensures j == |s| || !IsSpace(s[j])
    decreases |s| - i
  {
    if i < |s| && IsSpace(s[i]) then SkipSpace(s, i + 1) else i
  }

  /**
   * The backward scan of strings.TrimSpace: moving down from j but not below lo, the end
   * of the last character that is not whitespace, or lo if there is none.
   */
  function BackSpace(s: string, lo: nat, j: nat): (m: nat)
    requires lo <= j <= |s|
    ensures lo <= m <= j
    ensures forall k :: m <= k < j ==> IsSpace(s[k])
    ensures m == lo || !IsSpace(s[m - 1])
    decreases j
  {
    if j > lo && IsSpace(s[j - 1]) then BackSpace(s, lo, j - 1) else j
  }

  /**
   * strings.TrimSpace: s with its leading and trailing whitespace removed.
   * The result is a slice of s with only whitespace before and after it; it has no
   * whitespace at either end, and it is empty exactly when s is all whitespace.
   */
  function TrimSpace(s: string): (r: string)
    ensures Trimmed(r)
    ensures exists i, j :: 0 <= i <= j <= |s| && r == s[i..j] && AllSpace(s[..i]) && AllSpace(s[j..])
    ensures r == [] <==> AllSpace(s)
  {
    var i := SkipSpace(s, 0);
    var j := BackSpace(s, i, |s|);
    assert AllSpace(s[..i]) && AllSpace(s[j..]);
    assert i < j ==> s[i..j][0] == s[i];
    s[i..j]
  }

  /**
   * TrimSpace is the unique way to cut s into whitespace, a trimmed middle and whitespace:
   * whichever such decomposition one is given, TrimSpace returns its middle.
   */
  lemma TrimSpaceUnique(p: string, r: string, q: string)
    requires AllSpace(p) && AllSpace(q) && Trimmed(r)
    ensures TrimSpace(p + r + q) == r
  {
    var s := p + r + q;
    var i := SkipSpace(s, 0);
    if r == [] {
      assert i == |s|;
      assert s[i..|s|] == r;
    } else {
      assert s[|p|] == r[0];
      assert i == |p|;
      var j := BackSpace(s, i, |s|);
      assert s[|p| + |r| - 1] == r[|r| - 1];
      assert j == |p| + |r|;
      assert s[i..j] == r;
    }
  }

  /** A string with no whitespace at either end is left as it is. */
  lemma TrimSpaceOfTrimmed(s: string)
    requires Trimmed(s)
    ensures TrimSpace(s) == s
  {
    assert [] + s + [] == s;
    TrimSpaceUnique([], s, []);
  }

  /** Trimming twice is the same as trimming once. */
  lemma TrimSpaceIdempotent(s: string)
    ensures TrimSpace(TrimSpace(s)) == TrimSpace(s)
  {
    TrimSpaceOfTrimmed(TrimSpace(s));
  }
}
