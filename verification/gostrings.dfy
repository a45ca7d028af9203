/**
 * Go strings are immutable byte sequences. This module holds the byte type
 * and `strings.TrimSpace`, restricted to ASCII white space.
 */
module GoStrings {

  type Byte = b: int | 0 <= b < 256

  type GoString = seq<Byte>

  /** Go's ASCII white space: '\t', '\n', '\v', '\f', '\r' and ' '. */
  predicate IsSpace(b: Byte) {
    b == 9 || b == 10 || b == 11 || b == 12 || b == 13 || b == 32
  }

  predicate AllSpace(s: GoString) {
    forall k | 0 <= k < |s| :: IsSpace(s[k])
  }

  /** Drops the leading white space: the result is a suffix of `s`. */
  function TrimLeft(s: GoString): (r: GoString)
    ensures |r| <= |s| && r == s[|s| - |r|..]
    ensures AllSpace(s[..|s| - |r|])
    ensures r == [] || !IsSpace(r[0])
  {
    if s != [] && IsSpace(s[0]) then
      var r := TrimLeft(s[1..]);
      assert s[1..][..|s| - 1 - |r|] == s[1..|s| - |r|];
      r
    else s
  }

  /** Drops the trailing white space: the result is a prefix of `s`. */
  function TrimRight(s: GoString): (r: GoString)
    ensures |r| <= |s| && r == s[..|r|]
    ensures AllSpace(s[|r|..])
    ensures r == [] || !IsSpace(r[|r| - 1])
  {
    if s != [] && IsSpace(s[|s| - 1]) then
      var r := TrimRight(s[..|s| - 1]);
      assert s[|r|..] == s[..|s| - 1][|r|..] + [s[|s| - 1]];
      r
    else s
  }

  /**
   * `strings.TrimSpace`: the longest slice of `s` that neither starts nor
   * ends with white space, obtained by cutting white space off both ends.
   */
  function TrimSpace(s: GoString): (r: GoString)
    ensures r == [] || (!IsSpace(r[0]) && !IsSpace(r[|r| - 1]))
    ensures r == [] <==> AllSpace(s)
  {
    var t := TrimLeft(s);
    var r := TrimRight(t);
    TrimBothEnds(s, t, r);
    r
  }

  lemma TrimBothEnds(s: GoString, t: GoString, r: GoString)
    requires |t| <= |s| && t == s[|s| - |t|..] && AllSpace(s[..|s| - |t|])
    requires t == [] || !IsSpace(t[0])
    requires |r| <= |t| && r == t[..|r|] && AllSpace(t[|r|..])
    requires r == [] || !IsSpace(r[|r| - 1])
    ensures r == s[|s| - |t|..|s| - |t| + |r|]
    ensures AllSpace(s[|s| - |t| + |r|..])
    ensures r == [] || (!IsSpace(r[0]) && !IsSpace(r[|r| - 1]))
    ensures r == [] <==> AllSpace(s)
  {
    var i, j := |s| - |t|, |s| - |t| + |r|;
    assert s[j..] == t[|r|..];
    if r != [] {
      assert r[0] == t[0];
    } else {
      forall k | 0 <= k < |s| ensures IsSpace(s[k]) {
        assert s[k] == s[..i][k];
      }
    }
  }

  /** What TrimSpace cuts off is white space, from both ends only. */
  lemma TrimSpaceIsSlice(s: GoString)
    ensures exists i, j | 0 <= i <= j <= |s| :: TrimSpace(s) == s[i..j] && AllSpace(s[..i]) && AllSpace(s[j..])
  {
    var t := TrimLeft(s);
    var r := TrimRight(t);
    TrimBothEnds(s, t, r);
    var i, j := |s| - |t|, |s| - |t| + |r|;
    assert TrimSpace(s) == s[i..j] && AllSpace(s[..i]) && AllSpace(s[j..]);
  }

  /** A string without white space at either end is its own trimmed form. */
  lemma TrimSpaceUnchanged(s: GoString)
    requires s == [] || (!IsSpace(s[0]) && !IsSpace(s[|s| - 1]))
    ensures TrimSpace(s) == s
  {
  }

  /** Trimming twice is trimming once. */
  lemma {:induction false} TrimSpaceIdempotent(s: GoString)
    ensures TrimSpace(TrimSpace(s)) == TrimSpace(s)
  {
    TrimSpaceUnchanged(TrimSpace(s));
  }
}
