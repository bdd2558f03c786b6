/**
 * The string operations both halves of the application rely on: lower-casing,
 * prefix and substring tests, and replace-all.  Lower-casing covers ASCII letters.
 */
module Text {

  /** Lower-case one character: `A`..`Z` become `a`..`z`, everything else is kept. */
  function LowerChar(c: char): char {
    if 'A' <= c <= 'Z' then (c as int - 'A' as int + 'a' as int) as char else c
  }

  /** `s.toLowerCase()` / `s.lower()`, character by character. */
  function Lower(s: string): (r: string)
    ensures |r| == |s|
    ensures forall i :: 0 <= i < |s| ==> r[i] == LowerChar(s[i])
  {
    seq(|s|, i requires 0 <= i < |s| => LowerChar(s[i]))
  }

  /** `s.startsWith(prefix)`. */
  predicate StartsWith(s: string, prefix: string) {
    |prefix| <= |s| && s[..|prefix|] == prefix
  }

  /** `t` occurs in `s` starting at position `i`. */
  predicate OccursAt(s: string, t: string, i: nat) {
    i + |t| <= |s| && s[i..i + |t|] == t
  }

  /** `s.includes(t)` / Python's `t in s`: some suffix of `s` starts with `t`. */
  predicate Contains(s: string, t: string)
    decreases |s|
  {
    StartsWith(s, t) || (|s| > 0 && Contains(s[1..], t))
  }

  /** The recursive substring test agrees with the positional definition. */
  lemma {:induction false} ContainsIffOccurs(s: string, t: string)
    ensures Contains(s, t) <==> exists i: nat :: OccursAt(s, t, i)
    decreases |s|
  {
    if StartsWith(s, t) {
      assert OccursAt(s, t, 0);
    } else if |s| == 0 {
      assert |t| > 0;
    } else {
      ContainsIffOccurs(s[1..], t);
      if Contains(s[1..], t) {
        var i: nat :| OccursAt(s[1..], t, i);
        assert s[1..][i..i + |t|] == s[i + 1..i + 1 + |t|];
        assert OccursAt(s, t, i + 1);
      } else {
        forall i: nat ensures !OccursAt(s, t, i) {
          if i > 0 && OccursAt(s, t, i) {
            assert s[1..][i - 1..i - 1 + |t|] == s[i..i + |t|];
            assert OccursAt(s[1..], t, i - 1);
          }
        }
      }
    }
  }

  /** Every character of a substring occurs in the string. */
  lemma {:induction false} ContainsKeepsChars(s: string, t: string, c: char)
    requires Contains(s, t) && c in t
    ensures c in s
    decreases |s|
  {
    if StartsWith(s, t) {
      assert s[..|t|] == t;
    } else {
      ContainsKeepsChars(s[1..], t, c);
    }
  }

  /**
   * Python's `s.replace(p, r)`: occurrences of `p` are replaced from left to right,
   * and the text an occurrence was replaced by is never scanned again.
   */
  function ReplaceAll(s: string, p: string, r: string): (res: string)
    requires |p| > 0
    ensures !Contains(s, p) ==> res == s
    decreases |s|
  {
    if |s| < |p| then s
    else if s[..|p|] == p then r + ReplaceAll(s[|p|..], p, r)
    else [s[0]] + ReplaceAll(s[1..], p, r)
  }

  /** Replacing one character by another is a pointwise map over the string. */
  lemma {:induction false} ReplaceCharPointwise(s: string, a: char, b: char)
    ensures |ReplaceAll(s, [a], [b])| == |s|
    ensures forall i :: 0 <= i < |s| ==> ReplaceAll(s, [a], [b])[i] == (if s[i] == a then b else s[i])
    decreases |s|
  {
    if |s| > 0 {
      ReplaceCharPointwise(s[1..], a, b);
      var head := if s[0] == a then b else s[0];
      assert ReplaceAll(s, [a], [b]) == [head] + ReplaceAll(s[1..], [a], [b]);
    }
  }

  /** After replacing `a` by a different character, no `a` is left. */
  lemma ReplaceCharRemoves(s: string, a: char, b: char)
    requires a != b
    ensures a !in ReplaceAll(s, [a], [b])
  {
    ReplaceCharPointwise(s, a, b);
  }

  /** A pattern whose first character never occurs leaves the string unchanged. */
  lemma {:induction false} ReplaceAbsent(s: string, p: string, r: string)
    requires |p| > 0 && p[0] !in s
    ensures ReplaceAll(s, p, r) == s
    decreases |s|
  {
    if |s| >= |p| {
      assert s[..|p|][0] == s[0];
      ReplaceAbsent(s[1..], p, r);
    }
  }

  /** A prefix that cannot start an occurrence of `p` passes through unchanged. */
  lemma {:induction false} ReplaceSkipsPrefix(x: string, y: string, p: string, r: string)
    requires |p| > 0 && p[0] !in x
    ensures ReplaceAll(x + y, p, r) == x + ReplaceAll(y, p, r)
    decreases |x|
  {
    if |x| > 0 {
      var s := x + y;
      assert s[0] == x[0];
      assert s[1..] == x[1..] + y;
      if |s| < |p| {
        assert ReplaceAll(y, p, r) == y;
      } else {
        assert s[..|p|][0] == x[0];
        ReplaceSkipsPrefix(x[1..], y, p, r);
        assert x == [x[0]] + x[1..];
      }
    } else {
      assert x + y == y;
    }
  }

  /** An occurrence at the start is replaced, and the scan resumes after it. */
  lemma ReplaceAtStart(p: string, y: string, r: string)
    requires |p| > 0
    ensures ReplaceAll(p + y, p, r) == r + ReplaceAll(y, p, r)
  {
    assert (p + y)[..|p|] == p;
    assert (p + y)[|p|..] == y;
  }
}
