/**
 * Python `str.endswith` on dotted qualified names, and the final dotted
 * segment of such a name, with the lemmas that connect the two.
 */
module PyStrings {

  /** Python's `s.endswith(suf)` for a single string suffix. */
  predicate EndsWith(s: string, suf: string)
  {
    |suf| <= |s| && s[|s| - |suf|..] == suf
  }

  /** Reference reading of `endswith`: `s` is some prefix followed by `suf`. */
  lemma EndsWithIffConcat(s: string, suf: string)
    ensures EndsWith(s, suf) <==> exists p :: s == p + suf
  {
    if EndsWith(s, suf) {
      var p := s[..|s| - |suf|];
      assert s == p + suf;
    }
    if exists p :: s == p + suf {
      var p :| s == p + suf;
      assert s[|p|..] == suf;
    }
  }

  /** Any string followed by `suf` ends with `suf`. */
  lemma EndsWithAppend(p: string, suf: string)
    ensures EndsWith(p + suf, suf)
  {
    assert (p + suf)[|p|..] == suf;
  }

  /** A suffix of a suffix is a suffix. */
  lemma EndsWithTrans(s: string, t: string, u: string)
    requires EndsWith(s, t) && EndsWith(t, u)
    ensures EndsWith(s, u)
  {
    assert s[|s| - |u|..] == t[|t| - |u|..];
  }

  /** Ending with `a + b` implies ending with `b`. */
  lemma EndsWithDropFront(s: string, a: string, b: string)
    requires EndsWith(s, a + b)
    ensures EndsWith(s, b)
  {
    EndsWithAppend(a, b);
    EndsWithTrans(s, a + b, b);
  }

  /** Two suffixes of `s` of the same length are equal. */
  lemma SuffixesOfEqualLength(s: string, a: string, b: string)
    requires EndsWith(s, a) && EndsWith(s, b) && |a| == |b|
    ensures a == b
  {
  }

  /** The position of the last '.' in `s`, or -1 when there is none. */
  function LastDot(s: string): (k: int)
    ensures -1 <= k < |s|
    ensures k >= 0 ==> s[k] == '.'
    ensures forall j :: k < j < |s| ==> s[j] != '.'
    decreases |s|
  {
    if |s| == 0 then -1
    else if s[|s| - 1] == '.' then |s| - 1
    else
      var k := LastDot(s[..|s| - 1]);
      assert forall j :: k < j < |s| - 1 ==> s[j] == s[..|s| - 1][j];
      k
  }

  /**
   * The text after the last '.' of a dotted name (the whole name when it has
   * no dot): `LastSegment("socket.socket.sendall") == "sendall"`. The three
   * ensures pin it down: a dot-free suffix that is either the whole name or
   * preceded by a dot.
   */
  function LastSegment(s: string): (r: string)
    ensures EndsWith(s, r)
    ensures '.' !in r
    ensures |r| < |s| ==> s[|s| - |r| - 1] == '.'
  {
    s[LastDot(s) + 1..]
  }

  /** A dot-free suffix of `s` never reaches past the last dot of `s`. */
  lemma DotFreeSuffixWithinLastSegment(s: string, m: string)
    requires '.' !in m && EndsWith(s, m)
    ensures |m| <= |LastSegment(s)|
  {
    var r := LastSegment(s);
    if |r| < |m| {
      assert false;
    }
  }

  /**
   * For a dot-free `m`, ending with `m` is a question about the final
   * segment alone.
   */
  lemma EndsWithIffLastSegmentEndsWith(s: string, m: string)
    requires '.' !in m
    ensures EndsWith(s, m) <==> EndsWith(LastSegment(s), m)
  {
    var r := LastSegment(s);
    if EndsWith(s, m) {
      DotFreeSuffixWithinLastSegment(s, m);
      assert r[|r| - |m|..] == s[|s| - |m|..];
    }
    if EndsWith(r, m) {
      EndsWithTrans(s, r, m);
    }
  }

  /**
   * For a dot-free `m`, ending with `"." + m` holds exactly when the name
   * has a dot and `m` is its final segment.
   */
  lemma DotSuffixIffLastSegment(s: string, m: string)
    requires '.' !in m
    ensures EndsWith(s, "." + m) <==> '.' in s && LastSegment(s) == m
  {
    var r := LastSegment(s);
    if EndsWith(s, "." + m) {
      EndsWithDropFront(s, ".", m);
      DotFreeSuffixWithinLastSegment(s, m);
      var k := |s| - |m| - 1;
      assert s[k] == ("." + m)[0];
      if |r| > |m| {
        assert false;
      }
      SuffixesOfEqualLength(s, r, m);
    }
    if '.' in s && r == m {
      if |r| == |s| {
        assert false;
      }
      assert s[|s| - |m| - 1..] == ['.'] + m;
    }
  }
}
