/** Python's substring test on strings, shared by the text handling of several files. */
module Strings {
  /** `pattern in s`: `pattern` occurs somewhere in `s`. */
  predicate Occurs(pattern: string, s: string)
    decreases |s|
  {
    |s| >= |pattern| && (s[..|pattern|] == pattern || (s != [] && Occurs(pattern, s[1..])))
  }

  /** An occurrence at a known position is an occurrence. */
  lemma {:induction false} OccursAt(pattern: string, s: string, i: nat)
    requires i + |pattern| <= |s| && s[i..i + |pattern|] == pattern
    ensures Occurs(pattern, s)
    decreases i
  {
    if i > 0 {
      assert s[1..][i - 1..i - 1 + |pattern|] == pattern;
      OccursAt(pattern, s[1..], i - 1);
    }
  }

  /** A single character occurs exactly when it is one of the characters of `s`. */
  lemma {:induction false} OccursChar(c: char, s: string)
    ensures Occurs([c], s) <==> c in s
  {
    if s != [] {
      OccursChar(c, s[1..]);
      assert s == [s[0]] + s[1..];
    }
  }
}
