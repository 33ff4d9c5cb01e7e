/** Substring search on strings, as Python's `p in s` evaluates it for two `str`
    operands: exact, case-sensitive comparison of characters. */
module Text {

  /** `p` is a prefix of `s`. */
  predicate IsPrefix(p: string, s: string) {
    |p| <= |s| && s[..|p|] == p
  }

  /** Python's `p in s`: `p` starts at some position of `s`, tried left to right. */
  predicate Contains(s: string, p: string)
    decreases |s|
  {
    IsPrefix(p, s) || (s != [] && Contains(s[1..], p))
  }

  /** Reference definition: `p` occupies positions `i .. i + |p|` of `s`. */
  ghost predicate OccursAt(s: string, p: string, i: int) {
    0 <= i && i + |p| <= |s| && s[i..i + |p|] == p
  }

  /** The scanning search finds `p` exactly when `p` occurs at some offset of `s`. */
  lemma {:induction false} ContainsIffOccurs(s: string, p: string)
    ensures Contains(s, p) <==> exists i :: OccursAt(s, p, i)
    decreases |s|
  {
    if s != [] {
      ContainsIffOccurs(s[1..], p);
      if IsPrefix(p, s) {
        assert s[0..0 + |p|] == s[..|p|];
        assert OccursAt(s, p, 0);
      }
      if Contains(s[1..], p) {
        var i :| OccursAt(s[1..], p, i);
        assert s[1..][i..i + |p|] == s[i + 1..i + 1 + |p|];
        assert OccursAt(s, p, i + 1);
      }
      if exists i :: OccursAt(s, p, i) {
        var i :| OccursAt(s, p, i);
        if i > 0 {
          assert s[1..][i - 1..i - 1 + |p|] == s[i..i + |p|] by {
            var t, u := s[1..][i - 1..i - 1 + |p|], s[i..i + |p|];
            forall k | 0 <= k < |p|
              ensures t[k] == u[k]
            {
            }
          }
          assert OccursAt(s[1..], p, i - 1);
        } else {
          assert s[..|p|] == s[0..0 + |p|];
          assert IsPrefix(p, s);
        }
        assert Contains(s, p);
      }
    } else {
      if Contains(s, p) {
        assert OccursAt(s, p, 0);
      }
      if exists i :: OccursAt(s, p, i) {
        var i :| OccursAt(s, p, i);
        assert IsPrefix(p, s);
        assert Contains(s, p);
      }
    }
  }

  /** A pattern longer than the text never occurs in it. */
  lemma {:induction false} LongerNeverContained(s: string, p: string)
    requires |s| < |p|
    ensures !Contains(s, p)
    decreases |s|
  {
    if s != [] {
      LongerNeverContained(s[1..], p);
    }
  }
}
