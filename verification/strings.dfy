/** Substring search, the primitive behind `strings.Contains`. */
module Strings {

  /** `p` occurs in `s` starting at index `i`. */
  predicate OccursAt(s: string, p: string, i: int)
  {
    0 <= i && i + |p| <= |s| && s[i..i + |p|] == p
  }

  /** Specification of containment: `p` occurs somewhere in `s`. */
  ghost predicate Occurs(s: string, p: string)
  {
    exists i :: OccursAt(s, p, i)
  }

  /** An occurrence either starts at the first position or lies in the tail. */
  lemma OccursHeadOrTail(s: string, p: string)
    requires |s| > 0
    ensures Occurs(s, p) <==> OccursAt(s, p, 0) || Occurs(s[1..], p)
  {
    if Occurs(s, p) && !OccursAt(s, p, 0) {
      var i :| OccursAt(s, p, i);
      assert s[1..][i - 1..i - 1 + |p|] == s[i..i + |p|];
      assert OccursAt(s[1..], p, i - 1);
    }
    if Occurs(s[1..], p) {
      var i :| OccursAt(s[1..], p, i);
      assert s[1..][i..i + |p|] == s[i + 1..i + 1 + |p|];
      assert OccursAt(s, p, i + 1);
    }
  }

  /** Containment by scanning: compare a prefix, then move one character on. */
  function Contains(s: string, p: string): (b: bool)
    ensures b <==> Occurs(s, p)
    decreases |s|
  {
    if |p| > |s| then
      false
    else if s[..|p|] == p then
      assert OccursAt(s, p, 0);
      true
    else
      OccursHeadOrTail(s, p);
      Contains(s[1..], p)
  }

  /** Every occurrence of `p` brings along every occurrence inside `p`. */
  lemma OccursTransitive(s: string, p: string, q: string)
    requires Occurs(s, p) && Occurs(p, q)
    ensures Occurs(s, q)
  {
    var i :| OccursAt(s, p, i);
    var j :| OccursAt(p, q, j);
    forall k | 0 <= k < |q|
      ensures s[i + j + k] == q[k]
    {
      assert s[i + j + k] == s[i..i + |p|][j + k];
      assert q[k] == p[j..j + |q|][k];
    }
    assert s[i + j..i + j + |q|] == q;
    assert OccursAt(s, q, i + j);
  }

  /** A character that `s` lacks rules out every pattern containing it. */
  lemma MissingCharRulesOut(s: string, p: string, c: char)
    requires c in p && c !in s
    ensures !Occurs(s, p)
  {
  }

  /** Some occurrence of `p` in `x + y` covers both the last character of `x` and the first of `y`. */
  ghost predicate Straddles(x: string, y: string, p: string)
  {
    exists i :: i < |x| < i + |p| && OccursAt(x + y, p, i)
  }

  /** An occurrence in a join lies in the left piece, in the right piece, or across the seam. */
  lemma OccursInJoin(x: string, y: string, p: string)
    ensures Occurs(x + y, p) <==> Occurs(x, p) || Occurs(y, p) || Straddles(x, y, p)
  {
    var s := x + y;
    assert s[|x|..] == y;
    if Occurs(s, p) {
      var i :| OccursAt(s, p, i);
      if i + |p| <= |x| {
        assert x[i..i + |p|] == s[i..i + |p|];
        assert OccursAt(x, p, i);
      } else if i >= |x| {
        assert s[i..i + |p|] == s[|x|..][i - |x|..i - |x| + |p|];
        assert OccursAt(y, p, i - |x|);
      }
    }
    if Occurs(x, p) {
      var i :| OccursAt(x, p, i);
      assert s[i..i + |p|] == x[i..i + |p|];
      assert OccursAt(s, p, i);
    }
    if Occurs(y, p) {
      var i :| OccursAt(y, p, i);
      assert s[|x| + i..|x| + i + |p|] == s[|x|..][i..i + |p|];
      assert OccursAt(s, p, |x| + i);
    }
  }

  /** An occurrence across the seam contains the characters on both sides of it. */
  lemma StraddleCoversSeam(x: string, y: string, p: string)
    ensures Straddles(x, y, p) ==> x[|x| - 1] in p && y[0] in p
  {
    if Straddles(x, y, p) {
      var s := x + y;
      var i :| i < |x| < i + |p| && OccursAt(s, p, i);
      assert p[|x| - 1 - i] == s[i..i + |p|][|x| - 1 - i] == s[|x| - 1] == x[|x| - 1];
      assert p[|x| - i] == s[i..i + |p|][|x| - i] == s[|x|] == y[0];
    }
  }

  /**
   * Two pieces joined at a separator character: a pattern free of the separator
   * occurs in the join exactly when it occurs in one of the pieces.
   */
  lemma OccursInSeparatedJoin(x: string, y: string, p: string, sep: char)
    requires sep !in p
    requires (|x| > 0 && x[|x| - 1] == sep) || (|y| > 0 && y[0] == sep) || x == [] || y == []
    ensures Occurs(x + y, p) <==> Occurs(x, p) || Occurs(y, p)
  {
    OccursInJoin(x, y, p);
    StraddleCoversSeam(x, y, p);
  }
}
