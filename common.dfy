/** Small shared vocabulary: an optional value and the two string tests the
    page uses (`String.prototype.endsWith` and a prefix test). */
module Common {

  datatype Option<+T> = None | Some(value: T)

  /** `s.endsWith(suffix)` */
  predicate EndsWith(s: string, suffix: string)
  {
    |suffix| <= |s| && s[|s| - |suffix|..] == suffix
  }

  /** `s.startsWith(prefix)` */
  predicate StartsWith(s: string, prefix: string)
  {
    |prefix| <= |s| && s[..|prefix|] == prefix
  }

  /** The longest prefix of `s` that does not contain `c`. */
  function Before(s: string, c: char): (r: string)
    ensures c !in r
    ensures StartsWith(s, r)
    ensures |r| < |s| ==> s[|r|] == c
  {
    if s == [] || s[0] == c then [] else [s[0]] + Before(s[1..], c)
  }

  /** Splitting at the first `c` recovers the part written before it, provided
      that part holds no `c` itself. */
  lemma {:induction false} BeforeJoin(p: string, c: char, rest: string)
    requires c !in p
    ensures Before(p + [c] + rest, c) == p
  {
    if p != [] {
      assert (p + [c] + rest)[1..] == p[1..] + [c] + rest;
      BeforeJoin(p[1..], c, rest);
    }
  }

  /** A concatenation ends with its right operand. */
  lemma EndsWithConcat(a: string, b: string)
    ensures EndsWith(a + b, b)
  {
  }
}
