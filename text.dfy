/**
 * The two string operations the admin forms apply to typed text:
 * JavaScript's `String.prototype.trim` and `s.split('T')[0]`, which cuts an
 * ISO timestamp down to its calendar date.
 */
module Text {

  /**
   * The characters `trim` removes: ECMAScript's WhiteSpace (tab, vertical tab,
   * form feed, space, no-break space, byte order mark and the Unicode space
   * separators) and LineTerminator (line feed, carriage return, line and
   * paragraph separators).
   */
  predicate IsSpace(c: char) {
    c == '\t' || c == '\n' || c == '\U{000B}' || c == '\U{000C}' || c == '\r' || c == ' '
    || c == '\U{00A0}' || c == '\U{1680}' || ('\U{2000}' <= c <= '\U{200A}')
    || c == '\U{2028}' || c == '\U{2029}' || c == '\U{202F}' || c == '\U{205F}'
    || c == '\U{3000}' || c == '\U{FEFF}'
  }

  /** Every character of `s` is removed by `trim`. */
  predicate AllSpace(s: string) {
    forall i :: 0 <= i < |s| ==> IsSpace(s[i])
  }

  /** Drops the leading white space. */
  function TrimStart(s: string): (r: string)
    ensures |r| <= |s|
  {
    if s != [] && IsSpace(s[0]) then TrimStart(s[1..]) else s
  }

  /** What `TrimStart` keeps is a suffix of `s` that does not start with white space; what it drops is white space. */
  lemma {:induction false} TrimStartSpec(s: string)
    ensures |TrimStart(s)| <= |s| && TrimStart(s) == s[|s| - |TrimStart(s)|..]
    ensures AllSpace(s[..|s| - |TrimStart(s)|])
    ensures TrimStart(s) == [] || !IsSpace(TrimStart(s)[0])
  {
    if s != [] && IsSpace(s[0]) {
      TrimStartSpec(s[1..]);
      var r := TrimStart(s[1..]);
      assert s[1..][|s[1..]| - |r|..] == s[|s| - |r|..];
      assert s[..|s| - |r|] == [s[0]] + s[1..][..|s[1..]| - |r|];
    }
  }

  /** Drops the trailing white space. */
  function TrimEnd(s: string): (r: string)
    ensures |r| <= |s|
  {
    if s != [] && IsSpace(s[|s| - 1]) then TrimEnd(s[..|s| - 1]) else s
  }

  /** What `TrimEnd` keeps is a prefix of `s` that does not end with white space; what it drops is white space. */
  lemma {:induction false} TrimEndSpec(s: string)
    ensures |TrimEnd(s)| <= |s| && TrimEnd(s) == s[..|TrimEnd(s)|]
    ensures AllSpace(s[|TrimEnd(s)|..])
    ensures TrimEnd(s) == [] || !IsSpace(TrimEnd(s)[|TrimEnd(s)| - 1])
  {
    if s != [] && IsSpace(s[|s| - 1]) {
      var p := s[..|s| - 1];
      TrimEndSpec(p);
      var r := TrimEnd(p);
      assert p[..|r|] == s[..|r|];
      assert s[|r|..] == p[|r|..] + [s[|s| - 1]];
    }
  }

  /** `s.trim()`. */
  function Trim(s: string): (r: string)
  {
    TrimEnd(TrimStart(s))
  }

  /**
   * Dropping white space from the front of `s` (giving `t`) and then from the
   * back of `t` (giving `r`) keeps a contiguous piece of `s`.
   */
  lemma TrimSteps(s: string, t: string, r: string)
    requires |t| <= |s| && t == s[|s| - |t|..] && AllSpace(s[..|s| - |t|])
    requires t == [] || !IsSpace(t[0])
    requires |r| <= |t| && r == t[..|r|] && AllSpace(t[|r|..])
    requires r == [] || !IsSpace(r[|r| - 1])
    ensures var a := |s| - |t|;
      a + |r| <= |s| && r == s[a..a + |r|] && AllSpace(s[..a]) && AllSpace(s[a + |r|..])
    ensures r == [] || (!IsSpace(r[0]) && !IsSpace(r[|r| - 1]))
  {
    var a := |s| - |t|;
    assert s[a + |r|..] == t[|r|..];
    if r != [] {
      assert r[0] == t[0];
    }
  }

  /**
   * What `trim` keeps is a contiguous piece of `s` with no white space at
   * either end, and everything it drops is white space.
   */
  lemma {:induction false} TrimShape(s: string)
    ensures var a := |s| - |TrimStart(s)|;
      a + |Trim(s)| <= |s|
      && Trim(s) == s[a..a + |Trim(s)|]
      && AllSpace(s[..a]) && AllSpace(s[a + |Trim(s)|..])
    ensures Trim(s) == [] || (!IsSpace(Trim(s)[0]) && !IsSpace(Trim(s)[|Trim(s)| - 1]))
  {
    TrimStartSpec(s);
    TrimEndSpec(TrimStart(s));
    TrimSteps(s, TrimStart(s), TrimEnd(TrimStart(s)));
  }

  /** A text trims to nothing exactly when it is all white space (the "blank input" test of the add buttons). */
  lemma {:induction false} TrimEmptyIffBlank(s: string)
    ensures Trim(s) == [] <==> AllSpace(s)
  {
    TrimShape(s);
    var a := |s| - |TrimStart(s)|;
    var r := Trim(s);
    if r == [] {
      forall i | 0 <= i < |s| ensures IsSpace(s[i]) {
        if i < a {
          assert s[i] == s[..a][i];
        } else {
          assert s[i] == s[a..][i - a];
        }
      }
    } else {
      // what trim keeps starts with a character that is not white space
      assert r[0] == s[a];
    }
  }

  /** A text that neither starts nor ends with white space is left as it is. */
  lemma TrimKeepsUnpadded(s: string)
    requires s != [] && !IsSpace(s[0]) && !IsSpace(s[|s| - 1])
    ensures Trim(s) == s
  {
  }

  /** Trimming twice is trimming once. */
  lemma TrimIdempotent(s: string)
    ensures Trim(Trim(s)) == Trim(s)
  {
    var r := Trim(s);
    TrimShape(s);
    if r != [] {
      TrimKeepsUnpadded(r);
    }
  }

  /** `s.split('T')[0]`: the text before the first 'T', or all of `s` when it has none. */
  function DateOnly(s: string): (r: string)
    ensures r <= s
    ensures 'T' !in r
    ensures |r| < |s| ==> s[|r|] == 'T'
  {
    if s == [] || s[0] == 'T' then [] else [s[0]] + DateOnly(s[1..])
  }

  /** Cutting an already cut date changes nothing. */
  lemma DateOnlyIdempotent(s: string)
    ensures DateOnly(DateOnly(s)) == DateOnly(s)
  {
    var r := DateOnly(s);
    DateOnlyNoT(r);
  }

  /** A text without a 'T' is its own date part. */
  lemma {:induction false} DateOnlyNoT(s: string)
    requires 'T' !in s
    ensures DateOnly(s) == s
  {
    if s != [] {
      assert s[0] in s;
      assert forall c :: c in s[1..] ==> c in s;
      DateOnlyNoT(s[1..]);
      assert s == [s[0]] + s[1..];
    }
  }

  /** JavaScript's `s.startsWith(prefix)`. */
  predicate StartsWith(s: string, prefix: string) {
    prefix <= s
  }
}
