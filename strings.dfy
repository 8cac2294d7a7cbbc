/** Where the pieces of a concatenated text sit. */
module Strings {
  /** A text that starts with `a + b` has `a` and then `b` at its head. */
  lemma Split(s: string, a: string, b: string)
    requires |a| + |b| <= |s| && s[..|a| + |b|] == a + b
    ensures s[..|a|] == a
    ensures s[|a|..|a| + |b|] == b
  {
    assert s[..|a|] == (a + b)[..|a|];
    assert s[|a|..|a| + |b|] == (a + b)[|a|..];
  }
}
