/** Character-level helpers the analysis pipeline relies on: lower-casing a
    headline and testing whether one string occurs inside another (the
    behaviour of Python's `str.lower` and of `keyword in text`). */
module Text {

  /** ASCII lower-casing of one character; every other character is kept. */
  function LowerChar(c: char): (r: char)
    ensures 'A' <= c <= 'Z' ==> r as int == c as int + 32
    ensures !('A' <= c <= 'Z') ==> r == c
    ensures !('A' <= r <= 'Z')
  {
    if 'A' <= c <= 'Z' then (c as int + 32) as char else c
  }

  /** ASCII upper-casing of one character, used to state case-insensitivity. */
  function UpperChar(c: char): (r: char)
    ensures 'a' <= c <= 'z' ==> r as int == c as int - 32
    ensures !('a' <= c <= 'z') ==> r == c
  {
    if 'a' <= c <= 'z' then (c as int - 32) as char else c
  }

  /** `text.lower()`: the string with every upper-case letter lowered. */
  function ToLower(s: string): (r: string)
    ensures |r| == |s|
    ensures forall i :: 0 <= i < |s| ==> r[i] == LowerChar(s[i])
  {
    seq(|s|, i requires 0 <= i < |s| => LowerChar(s[i]))
  }

  function ToUpper(s: string): (r: string)
    ensures |r| == |s|
    ensures forall i :: 0 <= i < |s| ==> r[i] == UpperChar(s[i])
  {
    seq(|s|, i requires 0 <= i < |s| => UpperChar(s[i]))
  }

  /** A string holds no upper-case ASCII letter. */
  predicate IsLower(s: string)
  {
    forall i :: 0 <= i < |s| ==> !('A' <= s[i] <= 'Z')
  }

  /** Lowering leaves nothing to lower, and lowering twice is lowering once. */
  lemma ToLowerIdempotent(s: string)
    ensures IsLower(ToLower(s))
    ensures ToLower(ToLower(s)) == ToLower(s)
  {
  }

  /** Lowering works piece by piece. */
  lemma ToLowerAppend(a: string, b: string)
    ensures ToLower(a + b) == ToLower(a) + ToLower(b)
  {
  }

  /** Lowering forgets the case the text was written in: upper-casing a
      headline first changes nothing about its lower-cased form. */
  lemma ToLowerIgnoresCase(s: string)
    ensures ToLower(ToUpper(s)) == ToLower(s)
  {
    forall i | 0 <= i < |s|
      ensures ToLower(ToUpper(s))[i] == ToLower(s)[i]
    {
      var c := s[i];
      if 'a' <= c <= 'z' {
        assert UpperChar(c) as int == c as int - 32;
      } else if 'A' <= c <= 'Z' {
        assert UpperChar(c) == c;
      }
    }
  }

  /** `pat` occurs in `s` starting at position `i`. */
  predicate OccursAt(pat: string, s: string, i: nat)
  {
    i + |pat| <= |s| && s[i..i + |pat|] == pat
  }

  /** `pat` is a substring of `s` (Python's `pat in s`); the empty pattern
      occurs in every string. */
  ghost predicate Occurs(pat: string, s: string)
  {
    exists i: nat :: OccursAt(pat, s, i)
  }

  /** The executable substring test, scanning `s` from the left. */
  function Contains(s: string, pat: string): (b: bool)
    ensures b <==> Occurs(pat, s)
    decreases |s|
  {
    if |pat| > |s| then
      assert forall i: nat :: !OccursAt(pat, s, i);
      false
    else if s[..|pat|] == pat then
      assert OccursAt(pat, s, 0);
      true
    else
      var rest := Contains(s[1..], pat);
      assert rest ==> Occurs(pat, s) by {
        if rest {
          var j: nat :| OccursAt(pat, s[1..], j);
          assert s[1..][j..j + |pat|] == s[j + 1..j + 1 + |pat|];
          assert OccursAt(pat, s, j + 1);
        }
      }
      assert Occurs(pat, s) ==> rest by {
        if Occurs(pat, s) {
          var j: nat :| OccursAt(pat, s, j);
          assert j != 0;
          assert s[1..][j - 1..j - 1 + |pat|] == s[j..j + |pat|];
          assert OccursAt(pat, s[1..], j - 1);
        }
      }
      rest
  }

  /** A pattern holding a character the text lacks does not occur in it. */
  lemma AbsentCharExcludes(pat: string, s: string, k: nat)
    requires k < |pat| && pat[k] !in s
    ensures !Occurs(pat, s)
  {
    forall i: nat | i + |pat| <= |s|
      ensures !OccursAt(pat, s, i)
    {
      assert s[i + k] in s;
      assert s[i..i + |pat|][k] == s[i + k];
    }
  }

  /** The character `x` stands at position `i` of `s`, directly followed by `y`. */
  predicate PairAt(s: string, i: int, x: char, y: char)
  {
    0 <= i < |s| - 1 && s[i] == x && s[i + 1] == y
  }

  /** The character `x` is never directly followed by `y` in `s`. */
  predicate NoPair(s: string, x: char, y: char)
  {
    forall i :: 0 <= i < |s| - 1 ==> !PairAt(s, i, x, y)
  }

  /** A pattern two of whose neighbouring characters never stand side by
      side in the text does not occur in it. */
  lemma PairAbsentExcludes(pat: string, s: string, k: nat)
    requires k + 1 < |pat| && NoPair(s, pat[k], pat[k + 1])
    ensures !Occurs(pat, s)
  {
    forall i: nat | i + |pat| <= |s|
      ensures !OccursAt(pat, s, i)
    {
      assert s[i..i + |pat|][k] == s[i + k];
      assert s[i..i + |pat|][k + 1] == s[i + k + 1];
      assert !PairAt(s, i + k, pat[k], pat[k + 1]);
    }
  }

  /** A pair absent from two strings is absent from their concatenation
      when it does not straddle the junction either. */
  lemma NoPairAppend(a: string, b: string, x: char, y: char)
    requires NoPair(a, x, y) && NoPair(b, x, y)
    requires a != [] && b != [] ==> !(a[|a| - 1] == x && b[0] == y)
    ensures NoPair(a + b, x, y)
  {
    forall i | 0 <= i < |a + b| - 1
      ensures !PairAt(a + b, i, x, y)
    {
      if i < |a| - 1 {
        assert (a + b)[i] == a[i] && (a + b)[i + 1] == a[i + 1];
        assert !PairAt(a, i, x, y);
      } else if i == |a| - 1 {
        assert (a + b)[i] == a[|a| - 1] && (a + b)[i + 1] == b[0];
      } else {
        assert (a + b)[i] == b[i - |a|] && (a + b)[i + 1] == b[i - |a| + 1];
        assert !PairAt(b, i - |a|, x, y);
      }
    }
  }

  /** A pair that stands nowhere in a text cut into four parts: not inside a
      part and not across a junction. */
  lemma NoPairInParts(a: string, b: string, c: string, d: string, x: char, y: char)
    requires a != [] && b != [] && c != [] && d != []
    requires NoPair(a, x, y) && NoPair(b, x, y) && NoPair(c, x, y) && NoPair(d, x, y)
    requires !(a[|a| - 1] == x && b[0] == y)
    requires !(b[|b| - 1] == x && c[0] == y)
    requires !(c[|c| - 1] == x && d[0] == y)
    ensures NoPair(a + b + c + d, x, y)
  {
    NoPairAppend(a, b, x, y);
    NoPairAppend(a + b, c, x, y);
    NoPairAppend(a + b + c, d, x, y);
  }

  /** What occurs in a string occurs in any string around it. */
  lemma OccursInside(pre: string, part: string, post: string, pat: string)
    requires Occurs(pat, part)
    ensures Occurs(pat, pre + part + post)
  {
    var s := pre + part + post;
    var i: nat :| OccursAt(pat, part, i);
    assert s[|pre| + i..|pre| + i + |pat|] == part[i..i + |pat|];
    assert OccursAt(pat, s, |pre| + i);
  }

  /** What occurs in one part of a text cut into four parts occurs in the text. */
  lemma OccursInParts(a: string, b: string, c: string, d: string, pat: string)
    requires Occurs(pat, a) || Occurs(pat, b) || Occurs(pat, c) || Occurs(pat, d)
    ensures Occurs(pat, a + b + c + d)
  {
    if Occurs(pat, a) {
      OccursInside([], a, b + c + d, pat);
      assert [] + a + (b + c + d) == a + b + c + d;
    } else if Occurs(pat, b) {
      OccursInside(a, b, c + d, pat);
      assert a + b + (c + d) == a + b + c + d;
    } else if Occurs(pat, c) {
      OccursInside(a + b, c, d, pat);
    } else {
      OccursInside(a + b + c, d, [], pat);
      assert a + b + c + d + [] == a + b + c + d;
    }
  }

  /** Lowering a text cut into four parts lowers each part. */
  lemma ToLowerParts(a: string, b: string, c: string, d: string)
    ensures ToLower(a + b + c + d) == ToLower(a) + ToLower(b) + ToLower(c) + ToLower(d)
  {
    ToLowerAppend(a + b + c, d);
    ToLowerAppend(a + b, c);
    ToLowerAppend(a, b);
  }
}
