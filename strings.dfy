/** Go's `strings.TrimRight(s, cutset)`, the one library routine whose result
    the ipset wrapper surfaces: it removes the longest suffix of `s` made only
    of characters that occur in `cutset` (cutset semantics, not suffix
    semantics). Characters stand for the bytes of the captured standard error;
    for an ASCII cutset Go trims byte by byte, so the two views agree. */
module Strings {

  /** `r` is `s` with its maximal trailing run of cutset characters removed:
      a prefix of `s`, not ending in a cutset character, and everything it
      drops is a cutset character. */
  predicate IsRightTrim(r: string, s: string, cutset: string) {
    && r <= s
    && (r == [] || r[|r| - 1] !in cutset)
    && forall i :: |r| <= i < |s| ==> s[i] in cutset
  }

  function TrimRight(s: string, cutset: string): (r: string)
    ensures IsRightTrim(r, s, cutset)
    decreases |s|
  {
    if |s| > 0 && s[|s| - 1] in cutset then TrimRight(s[..|s| - 1], cutset) else s
  }

  /** The three conditions of IsRightTrim pin the result down. */
  lemma RightTrimUnique(r: string, r': string, s: string, cutset: string)
    requires IsRightTrim(r, s, cutset) && IsRightTrim(r', s, cutset)
    ensures r == r'
  {
    assert |r| == |r'|;
  }

  /** Any string meeting the characterisation is what TrimRight returns. */
  lemma TrimRightCharacterised(r: string, s: string, cutset: string)
    requires IsRightTrim(r, s, cutset)
    ensures TrimRight(s, cutset) == r
  {
    RightTrimUnique(TrimRight(s, cutset), r, s, cutset);
  }

  /** Trimming leaves a string alone exactly when it is empty or does not end
      in a cutset character. */
  lemma TrimRightUnchanged(s: string, cutset: string)
    ensures TrimRight(s, cutset) == s <==> (s == [] || s[|s| - 1] !in cutset)
  {
    if s == [] || s[|s| - 1] !in cutset {
      TrimRightCharacterised(s, s, cutset);
    }
  }

  lemma TrimRightIdempotent(s: string, cutset: string)
    ensures TrimRight(TrimRight(s, cutset), cutset) == TrimRight(s, cutset)
  {
    TrimRightUnchanged(TrimRight(s, cutset), cutset);
  }

  /** Appending any number of cutset characters does not change the result:
      a run of several line terminators is removed as a whole. */
  lemma TrimRightDropsCutsetSuffix(s: string, t: string, cutset: string)
    requires forall i :: 0 <= i < |t| ==> t[i] in cutset
    ensures TrimRight(s + t, cutset) == TrimRight(s, cutset)
  {
    var r := TrimRight(s, cutset);
    forall i | |r| <= i < |s + t|
      ensures (s + t)[i] in cutset
    {
      if i >= |s| {
        assert (s + t)[i] == t[i - |s|];
      }
    }
    TrimRightCharacterised(r, s + t, cutset);
  }

  /** A character that is not in the cutset is never removed, and neither is
      anything before it: cutset characters in the interior of the text stay. */
  lemma TrimRightKeepsUpTo(s: string, k: int, cutset: string)
    requires 0 <= k < |s| && s[k] !in cutset
    ensures k < |TrimRight(s, cutset)|
    ensures TrimRight(s, cutset)[..k + 1] == s[..k + 1]
  {
  }

  /** Only the tail is ever touched: once the tail `b` contains a character
      outside the cutset, the head `a` passes through unchanged. */
  lemma TrimRightKeepsHead(a: string, b: string, k: int, cutset: string)
    requires 0 <= k < |b| && b[k] !in cutset
    ensures TrimRight(a + b, cutset) == a + TrimRight(b, cutset)
  {
    var r := TrimRight(b, cutset);
    TrimRightKeepsUpTo(b, k, cutset);
    assert r <= b;
    assert a + r <= a + b by {
      assert a + b == a + r + b[|r|..];
    }
    forall i | |a + r| <= i < |a + b|
      ensures (a + b)[i] in cutset
    {
      assert (a + b)[i] == b[i - |a|];
    }
    assert (a + r)[|a + r| - 1] == r[|r| - 1];
    TrimRightCharacterised(a + r, a + b, cutset);
  }
}
