/**
 * The string operations the handler relies on: Python's `str.replace`,
 * `os.path.basename`, and a search for the first occurrence of a character.
 */
module Text {

  /** `pat` occurs in `s` starting at index `i`. */
  predicate OccursAt(s: string, pat: string, i: nat)
  {
    i + |pat| <= |s| && s[i..i + |pat|] == pat
  }

  predicate Contains(s: string, pat: string)
  {
    exists i: nat | i <= |s| :: OccursAt(s, pat, i)
  }

  /**
   * `s.replace(pat, rep)`: scans left to right and replaces every
   * non-overlapping occurrence of `pat` by `rep`.
   */
  function ReplaceAll(s: string, pat: string, rep: string): string
    requires pat != []
    decreases |s|
  {
    if |s| < |pat| then s
    else if s[..|pat|] == pat then rep + ReplaceAll(s[|pat|..], pat, rep)
    else [s[0]] + ReplaceAll(s[1..], pat, rep)
  }

  /**
   * Before the first occurrence of the pattern the text is copied, that
   * occurrence is replaced, and the replacement goes on after it.
   */
  lemma {:induction false} ReplaceAllFirstOccurrence(a: string, pat: string, rep: string, b: string)
    requires pat != []
    requires forall i :: 0 <= i < |a| ==> !OccursAt(a + pat + b, pat, i)
    ensures ReplaceAll(a + pat + b, pat, rep) == a + rep + ReplaceAll(b, pat, rep)
    decreases |a|
  {
    var s := a + pat + b;
    if a == [] {
      assert s == pat + b;
      assert s[..|pat|] == pat && s[|pat|..] == b;
    } else {
      assert !OccursAt(s, pat, 0);
      assert s[1..] == a[1..] + pat + b;
      forall i | 0 <= i < |a| - 1 ensures !OccursAt(s[1..], pat, i) {
        assert !OccursAt(s, pat, i + 1);
        assert s[1..][i..i + |pat|] == s[i + 1..i + 1 + |pat|];
      }
      ReplaceAllFirstOccurrence(a[1..], pat, rep, b);
      assert [a[0]] + (a[1..] + rep + ReplaceAll(b, pat, rep)) == a + rep + ReplaceAll(b, pat, rep);
    }
  }

  /** Replacing by a non-empty string yields the empty string only from the empty string. */
  lemma ReplaceAllEmpty(s: string, pat: string, rep: string)
    requires pat != [] && rep != []
    ensures ReplaceAll(s, pat, rep) == [] <==> s == []
  {
  }

  /**
   * Up to the first character that a replacement produced, the output
   * agrees with the input.
   */
  lemma {:induction false} ReplaceAllPrefix(s: string, pat: string, rep: string, m: nat)
    requires pat != [] && rep != []
    requires m <= |s| && m <= |ReplaceAll(s, pat, rep)|
    ensures ReplaceAll(s, pat, rep)[..m] == s[..m] || rep[0] in ReplaceAll(s, pat, rep)[..m]
  {
    var r := ReplaceAll(s, pat, rep);
    if m == 0 || |s| < |pat| {
    } else if s[..|pat|] == pat {
      assert r[0] == rep[0];
    } else {
      var t := ReplaceAll(s[1..], pat, rep);
      ReplaceAllPrefix(s[1..], pat, rep, m - 1);
      assert r[..m] == [s[0]] + t[..m - 1];
      assert s[..m] == [s[0]] + s[1..][..m - 1];
    }
  }

  /**
   * When the pattern's first character cannot come from the replacement and
   * the replacement's first character cannot occur in the pattern, no
   * occurrence of the pattern survives the replacement.
   */
  lemma {:induction false} ReplaceAllRemovesPattern(s: string, pat: string, rep: string)
    requires pat != [] && rep != []
    requires pat[0] !in rep && rep[0] !in pat
    ensures !Contains(ReplaceAll(s, pat, rep), pat)
    decreases |s|
  {
    if |s| < |pat| {
    } else if s[..|pat|] == pat {
      var t := ReplaceAll(s[|pat|..], pat, rep);
      ReplaceAllRemovesPattern(s[|pat|..], pat, rep);
      assert (rep + t)[0] == rep[0] != pat[0];
      assert forall c | c in rep[1..] :: c in rep;
      NoPatternAfter(rep, t, pat);
    } else {
      ReplaceAllRemovesPattern(s[1..], pat, rep);
      FirstWindowAfterCopy(s, pat, rep);
      assert [s[0]][1..] == [];
      NoPatternAfter([s[0]], ReplaceAll(s[1..], pat, rep), pat);
    }
  }

  /** A window past the end of `a` lies in `b`. */
  lemma SliceAfter(a: string, b: string, i: nat, j: nat)
    requires |a| <= i <= j <= |a| + |b|
    ensures (a + b)[i..j] == b[i - |a|..j - |a|]
  {
  }

  /**
   * Putting `a` in front of a string without the pattern makes no
   * occurrence, except perhaps at the very front, when `a` may start one.
   */
  lemma NoPatternAfter(a: string, t: string, pat: string)
    requires pat != [] && !Contains(t, pat)
    requires a != [] && pat[0] !in a[1..]
    requires !OccursAt(a + t, pat, 0)
    ensures !Contains(a + t, pat)
  {
    forall i: nat | 0 < i && i + |pat| <= |a + t| ensures !OccursAt(a + t, pat, i) {
      if i < |a| {
        assert (a + t)[i..i + |pat|][0] == a[1..][i - 1];
      } else {
        SliceAfter(a, t, i, i + |pat|);
        assert !OccursAt(t, pat, i - |a|);
      }
    }
  }

  /**
   * Keeping a first character that does not start the pattern leaves no
   * pattern at the front: the rest of the window is either copied from `s`
   * or starts with the replacement.
   */
  lemma FirstWindowAfterCopy(s: string, pat: string, rep: string)
    requires pat != [] && rep != []
    requires rep[0] !in pat
    requires |s| >= |pat| && s[..|pat|] != pat
    ensures !OccursAt(ReplaceAll(s, pat, rep), pat, 0)
  {
    var r := ReplaceAll(s, pat, rep);
    var t := ReplaceAll(s[1..], pat, rep);
    var n := |pat| - 1;
    assert r == [s[0]] + t;
    if |r| >= |pat| {
      ReplaceAllPrefix(s[1..], pat, rep, n);
      assert r[..|pat|] == [s[0]] + t[..n];
      if t[..n] == s[1..][..n] {
        assert s[..|pat|] == [s[0]] + s[1..][..n];
      } else {
        assert rep[0] !in pat[1..];
      }
    }
  }

  /** A string without the pattern is left as it is. */
  lemma {:induction false} ReplaceAllIdentity(s: string, pat: string, rep: string)
    requires pat != []
    requires !Contains(s, pat)
    ensures ReplaceAll(s, pat, rep) == s
  {
    if |s| < |pat| {
    } else {
      assert !OccursAt(s, pat, 0);
      forall i: nat | OccursAt(s[1..], pat, i) ensures false {
        assert s[1..][i..i + |pat|] == s[i + 1..i + 1 + |pat|];
        assert OccursAt(s, pat, i + 1);
      }
      ReplaceAllIdentity(s[1..], pat, rep);
    }
  }

  /** Replacing twice is the same as replacing once. */
  lemma ReplaceAllIdempotent(s: string, pat: string, rep: string)
    requires pat != [] && rep != []
    requires pat[0] !in rep && rep[0] !in pat
    ensures ReplaceAll(ReplaceAll(s, pat, rep), pat, rep) == ReplaceAll(s, pat, rep)
  {
    ReplaceAllRemovesPattern(s, pat, rep);
    ReplaceAllIdentity(ReplaceAll(s, pat, rep), pat, rep);
  }

  /**
   * `os.path.basename(p)`: the part of `p` after its last '/', which is all
   * of `p` when it has none.
   */
  function Basename(p: string): string
  {
    if p == [] || p[|p| - 1] == '/' then []
    else Basename(p[..|p| - 1]) + [p[|p| - 1]]
  }

  /** `Basename(p)` is the last segment of `p`: its longest suffix without a '/'. */
  lemma {:induction false} BasenameIsLastSegment(p: string)
    ensures var b := Basename(p);
      && '/' !in b
      && |b| <= |p| && b == p[|p| - |b|..]
      && (|b| == |p| || p[|p| - |b| - 1] == '/')
  {
    if p != [] && p[|p| - 1] != '/' {
      var q := p[..|p| - 1];
      BasenameIsLastSegment(q);
      var b := Basename(q);
      assert p[|p| - |b| - 1..] == q[|q| - |b|..] + [p[|p| - 1]];
      if |b| < |q| {
        assert p[|p| - |b| - 2] == q[|q| - |b| - 1];
      }
    }
  }

  /** The index of the first `c` in `s`, or `|s|` when there is none. */
  function IndexOf(s: string, c: char): (i: nat)
    ensures i <= |s|
    ensures i < |s| ==> s[i] == c
    ensures c !in s[..i]
  {
    if s == [] then 0
    else if s[0] == c then 0
    else 1 + IndexOf(s[1..], c)
  }
}
