/**
 * Removing leading and trailing whitespace.  JavaScript's `trim()` and
 * Python's `str.strip()` are the same operation over different whitespace
 * sets, so the set is a parameter.
 */
module Text {

  /** Every character of `s` is whitespace (vacuously true of ""). */
  predicate AllSpace(s: string, isSpace: char -> bool)
  {
    forall i | 0 <= i < |s| :: isSpace(s[i])
  }

  /** The first position at or after `i` that is not whitespace, or |s|. */
  function ContentStart(s: string, isSpace: char -> bool, i: nat): (n: nat)
    requires i <= |s|
    ensures i <= n <= |s|
    ensures forall k | i <= k < n :: isSpace(s[k])
    ensures n < |s| ==> !isSpace(s[n])
    decreases |s| - i
  {
    if i == |s| || !isSpace(s[i]) then i else ContentStart(s, isSpace, i + 1)
  }

  /** Scanning down from `j` to `lo`: the end of the last character before
   *  `j` that is not whitespace, or `lo`. */
  function ContentEnd(s: string, isSpace: char -> bool, lo: nat, j: nat): (n: nat)
    requires lo <= j <= |s|
    ensures lo <= n <= j
    ensures forall k | n <= k < j :: isSpace(s[k])
    ensures n > lo ==> !isSpace(s[n - 1])
    decreases j
  {
    if j == lo || !isSpace(s[j - 1]) then j else ContentEnd(s, isSpace, lo, j - 1)
  }

  /** Drops both the leading and the trailing whitespace of `s`: the result
   *  is the slice `s[a..a + |r|]` that neither starts nor ends with
   *  whitespace, and everything cut off is whitespace. */
  function Strip(s: string, isSpace: char -> bool): (r: string)
    ensures |r| <= |s|
    ensures exists a {:trigger AllSpace(s[..a], isSpace)} | 0 <= a <= |s| - |r| ::
      r == s[a..a + |r|] && AllSpace(s[..a], isSpace) && AllSpace(s[a + |r|..], isSpace)
    ensures r != [] ==> !isSpace(r[0]) && !isSpace(r[|r| - 1])
  {
    var lo := ContentStart(s, isSpace, 0);
    var hi := ContentEnd(s, isSpace, lo, |s|);
    assert AllSpace(s[..lo], isSpace) by {
      forall k | 0 <= k < lo ensures isSpace(s[..lo][k]) { assert s[..lo][k] == s[k]; }
    }
    assert AllSpace(s[hi..], isSpace) by {
      forall k | 0 <= k < |s| - hi ensures isSpace(s[hi..][k]) { assert s[hi..][k] == s[hi + k]; }
    }
    s[lo..hi]
  }

  /** Stripping leaves nothing exactly when the string is all whitespace. */
  lemma StripEmptyIffAllSpace(s: string, isSpace: char -> bool)
    ensures Strip(s, isSpace) == [] <==> AllSpace(s, isSpace)
  {
    var r := Strip(s, isSpace);
    var a :| 0 <= a <= |s| - |r| && r == s[a..a + |r|]
             && AllSpace(s[..a], isSpace) && AllSpace(s[a + |r|..], isSpace);
    if r == [] {
      forall i | 0 <= i < |s| ensures isSpace(s[i]) {
        if i < a { assert s[i] == s[..a][i]; } else { assert s[i] == s[a..][i - a]; }
      }
    } else {
      assert s[a] == r[0];
    }
  }

  /** Stripping twice changes nothing more. */
  lemma StripIdempotent(s: string, isSpace: char -> bool)
    ensures Strip(Strip(s, isSpace), isSpace) == Strip(s, isSpace)
  {
  }
}
