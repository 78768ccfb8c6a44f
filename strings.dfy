/** Specification predicates on text used to state the message layout:
    prefix, suffix and substring containment. */
module Strings {

  /** `p` is a prefix of `s`. */
  predicate StartsWith(s: string, p: string) {
    |p| <= |s| && s[..|p|] == p
  }

  /** `q` is a suffix of `s`. */
  predicate EndsWith(s: string, q: string) {
    |q| <= |s| && s[|s| - |q|..] == q
  }

  /** `t` occurs somewhere in `s` as a contiguous substring
      (what a test's `Does.Contain` asks of a message). */
  predicate Contains(s: string, t: string) {
    exists i :: 0 <= i <= |s| && StartsWith(s[i..], t)
  }

  /** Every string occurs in itself. */
  lemma ContainsSelf(t: string)
    ensures Contains(t, t)
  {
    assert t[0..][..|t|] == t;
    assert StartsWith(t[0..], t);
  }

  /** What occurs in `a` occurs in `a + b`. */
  lemma ContainsLeft(a: string, b: string, t: string)
    requires Contains(a, t)
    ensures Contains(a + b, t)
  {
    var i :| 0 <= i <= |a| && StartsWith(a[i..], t);
    assert (a + b)[i..][..|t|] == a[i..][..|t|];
    assert StartsWith((a + b)[i..], t);
  }

  /** What occurs in `b` occurs in `a + b`. */
  lemma ContainsRight(a: string, b: string, t: string)
    requires Contains(b, t)
    ensures Contains(a + b, t)
  {
    var i :| 0 <= i <= |b| && StartsWith(b[i..], t);
    assert (a + b)[|a| + i..] == b[i..];
    assert StartsWith((a + b)[|a| + i..], t);
  }
}
