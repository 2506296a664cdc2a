/** The pieces of Python's `str` that the core relies on: `strip`, `startswith` and `in`. */
module Text {

  /** Python's `str.isspace` for one character: the characters that `str.strip()` removes. */
  predicate IsSpace(c: char)
  {
    || ('\t' <= c <= '\r')
    || ('\U{1C}' <= c <= '\U{1F}')
    || c == ' '
    || c == '\U{85}'
    || c == '\U{A0}'
    || c == '\U{1680}'
    || ('\U{2000}' <= c <= '\U{200A}')
    || c == '\U{2028}'
    || c == '\U{2029}'
    || c == '\U{202F}'
    || c == '\U{205F}'
    || c == '\U{3000}'
  }

  /** Every character of `s` is white space. */
  predicate AllSpace(s: string)
  {
    forall i :: 0 <= i < |s| ==> IsSpace(s[i])
  }

  /** `s.rstrip()`: the longest prefix of `s` that does not end in white space. */
  function RStrip(s: string): (r: string)
    ensures |r| <= |s| && r == s[..|r|]
    ensures AllSpace(s[|r|..])
    ensures r == [] || !IsSpace(r[|r| - 1])
  {
    if |s| > 0 && IsSpace(s[|s| - 1]) then
      var r := RStrip(s[..|s| - 1]);
      AllSpaceExtend(s, |r|);
      r
    else
      s
  }

  lemma AllSpaceExtend(s: string, k: nat)
    requires 0 < |s| && k <= |s| - 1
    requires AllSpace(s[..|s| - 1][k..]) && IsSpace(s[|s| - 1])
    ensures AllSpace(s[k..])
  {
    forall i | 0 <= i < |s[k..]| ensures IsSpace(s[k..][i]) {
      if k + i < |s| - 1 {
        assert s[k..][i] == s[..|s| - 1][k..][i];
      }
    }
  }

  /** `s.lstrip()`: the longest suffix of `s` that does not start with white space. */
  function LStrip(s: string): string
  {
    if |s| > 0 && IsSpace(s[0]) then LStrip(s[1..]) else s
  }

  /** `lstrip` removes white space and only white space, and stops at the first other
      character. */
  lemma {:induction false} LStripSpec(s: string)
    ensures var r := LStrip(s);
      && |r| <= |s| && r == s[|s| - |r|..]
      && AllSpace(s[..|s| - |r|])
      && (r == [] || !IsSpace(r[0]))
  {
    if |s| > 0 && IsSpace(s[0]) {
      var r := LStrip(s[1..]);
      LStripSpec(s[1..]);
      SuffixOfTail(s, |s| - |r|);
      AllSpacePrepend(s, |s| - 1 - |r|);
    }
  }

  lemma SuffixOfTail(s: string, k: nat)
    requires 0 < k <= |s|
    ensures s[1..][k - 1..] == s[k..]
  {
  }

  lemma AllSpacePrepend(s: string, k: nat)
    requires 0 < |s| && k <= |s| - 1
    requires AllSpace(s[1..][..k]) && IsSpace(s[0])
    ensures AllSpace(s[..k + 1])
  {
    forall i | 0 < i < k + 1 ensures IsSpace(s[i]) {
      assert s[i] == s[1..][..k][i - 1];
    }
  }

  /** `s.strip()`. */
  function Strip(s: string): string
  {
    LStrip(RStrip(s))
  }

  /** `s.startswith(p)`. */
  predicate StartsWith(s: string, p: string)
  {
    |p| <= |s| && s[..|p|] == p
  }

  /** `t in s` for strings: `t` occurs in `s` at some position, searched from the left. */
  predicate Contains(s: string, t: string)
    decreases |s|
  {
    StartsWith(s, t) || (|s| > 0 && Contains(s[1..], t))
  }

  /** `t` occurs in `s` starting at index `i`. */
  predicate OccursAt(s: string, t: string, i: int)
  {
    0 <= i && i + |t| <= |s| && s[i..i + |t|] == t
  }

  /** The prefix test is an occurrence at the start. */
  lemma StartsWithIff(s: string, p: string)
    ensures StartsWith(s, p) <==> OccursAt(s, p, 0)
  {
  }

  /** The substring test agrees with its reference definition, in both directions. */
  lemma {:induction false} ContainsIff(s: string, t: string)
    ensures Contains(s, t) <==> exists i :: OccursAt(s, t, i)
    decreases |s|
  {
    forall i ensures OccursAt(s, t, i) <==> (i == 0 && StartsWith(s, t)) || (i > 0 && |s| > 0 && OccursAt(s[1..], t, i - 1)) {
      if i == 0 && |t| <= |s| {
        assert s[..|t|] == s[i..i + |t|];
      } else if i > 0 && i + |t| <= |s| {
        assert s[i..i + |t|] == s[1..][i - 1..i - 1 + |t|];
      }
    }
    if |s| > 0 {
      ContainsIff(s[1..], t);
      if Contains(s[1..], t) {
        var j :| OccursAt(s[1..], t, j);
        assert OccursAt(s, t, j + 1);
      }
    }
    if StartsWith(s, t) {
      assert OccursAt(s, t, 0);
    }
  }

  /** A string with a non-space first character is left alone by `lstrip`. */
  lemma LStripNonSpaceStart(s: string)
    requires |s| > 0 && !IsSpace(s[0])
    ensures LStrip(s) == s
  {
  }

  /** Whatever follows a head that starts with a non-space character, `lstrip` keeps it all. */
  lemma LStripNonSpaceHead(h: string, x: string)
    requires |h| > 0 && !IsSpace(h[0])
    ensures LStrip(h + x) == h + x
  {
    assert (h + x)[0] == h[0];
    LStripNonSpaceStart(h + x);
  }

  /** A string of white space strips to nothing. */
  lemma {:induction false} RStripAllSpace(s: string)
    requires AllSpace(s)
    ensures RStrip(s) == []
    decreases |s|
  {
    if |s| > 0 {
      var init := s[..|s| - 1];
      assert AllSpace(init) by {
        forall i | 0 <= i < |init| ensures IsSpace(init[i]) {
          assert init[i] == s[i];
        }
      }
      RStripAllSpace(init);
    }
  }

  /** How `rstrip` acts on a concatenation: white space at the end of `t` is removed, and only
      when `t` is all white space does the stripping reach into `s`. */
  lemma {:induction false} RStripConcat(s: string, t: string)
    ensures RStrip(s + t) == if RStrip(t) == [] then RStrip(s) else s + RStrip(t)
    decreases |t|
  {
    if |t| == 0 {
      assert s + t == s;
    } else if IsSpace(t[|t| - 1]) {
      assert (s + t)[..|s + t| - 1] == s + t[..|t| - 1];
      RStripConcat(s, t[..|t| - 1]);
    } else {
      assert (s + t)[|s + t| - 1] == t[|t| - 1];
    }
  }

  /** A string cannot contain a non-empty string whose first character it lacks. */
  lemma NotContainsMissingFirst(s: string, t: string)
    requires |t| > 0 && forall i :: 0 <= i < |s| ==> s[i] != t[0]
    ensures !Contains(s, t)
  {
    forall i ensures OccursAt(s, t, i) ==> s[i] == t[0] {
      if OccursAt(s, t, i) {
        assert s[i..i + |t|][0] == s[i];
      }
    }
    ContainsIff(s, t);
  }
}
