/**
 * String helpers shared by the client and server models: JavaScript/Python
 * `split` on one separator character, `join`, prefix tests and the
 * first-occurrence `replace` of JavaScript.
 */
module Text {

  /** `s.split(c)`: always at least one part; no part contains `c`. */
  function Split(s: string, c: char): (parts: seq<string>)
    ensures |parts| >= 1
    ensures forall i :: 0 <= i < |parts| ==> c !in parts[i]
    decreases |s|
  {
    if s == [] then [""]
    else if s[0] == c then [""] + Split(s[1..], c)
    else
      var p := Split(s[1..], c);
      [[s[0]] + p[0]] + p[1..]
  }

  /** `parts.join(c)`; the join of no parts is the empty string. */
  function Join(parts: seq<string>, c: char): string
  {
    if |parts| == 0 then ""
    else if |parts| == 1 then parts[0]
    else parts[0] + [c] + Join(parts[1..], c)
  }

  /** Splitting and re-joining on the same separator gives back the string. */
  lemma {:induction false} JoinSplit(s: string, c: char)
    ensures Join(Split(s, c), c) == s
    decreases |s|
  {
    if s == [] {
    } else if s[0] == c {
      JoinSplit(s[1..], c);
      var p := Split(s[1..], c);
      assert Split(s, c) == [""] + p;
      assert ([""] + p)[1..] == p;
    } else {
      JoinSplit(s[1..], c);
      var p := Split(s[1..], c);
      var q := [[s[0]] + p[0]] + p[1..];
      assert Split(s, c) == q;
      if |p| == 1 {
        assert Join(p, c) == p[0];
      } else {
        assert q[1..] == p[1..];
        assert Join(p, c) == p[0] + [c] + Join(p[1..], c);
      }
    }
  }

  /** Joining is associative at the last part: the last part follows the join of the others and a separator. */
  lemma {:induction false} JoinLast(parts: seq<string>, c: char)
    requires |parts| >= 2
    ensures Join(parts, c) == Join(parts[..|parts| - 1], c) + [c] + parts[|parts| - 1]
    decreases |parts|
  {
    var n := |parts|;
    if n == 2 {
      assert parts[..1] == [parts[0]];
      assert parts[1..] == [parts[1]];
    } else {
      JoinLast(parts[1..], c);
      assert parts[1..][..n - 2] == parts[..n - 1][1..];
      assert parts[..n - 1][0] == parts[0];
    }
  }

  /** A string without the separator splits into itself alone. */
  lemma {:induction false} SplitWithoutSeparator(a: string, c: char)
    requires c !in a
    ensures Split(a, c) == [a]
    decreases |a|
  {
    if a != [] {
      SplitWithoutSeparator(a[1..], c);
      assert [a[0]] + a[1..] == a;
    }
  }

  /** Splitting `a + [c] + b`, when `a` has no `c`, gives `a` and then the parts of `b`. */
  lemma {:induction false} SplitAfterPart(a: string, c: char, b: string)
    requires c !in a
    ensures Split(a + [c] + b, c) == [a] + Split(b, c)
    decreases |a|
  {
    if a == [] {
      assert (a + [c] + b)[1..] == b;
    } else {
      SplitAfterPart(a[1..], c, b);
      assert (a + [c] + b)[1..] == a[1..] + [c] + b;
      assert [a[0]] + a[1..] == a;
    }
  }

  /** Joining parts without the separator and splitting again gives the parts back. */
  lemma {:induction false} SplitJoin(parts: seq<string>, c: char)
    requires |parts| >= 1
    requires forall i :: 0 <= i < |parts| ==> c !in parts[i]
    ensures Split(Join(parts, c), c) == parts
    decreases |parts|
  {
    if |parts| == 1 {
      SplitWithoutSeparator(parts[0], c);
    } else {
      SplitJoin(parts[1..], c);
      SplitAfterPart(parts[0], c, Join(parts[1..], c));
      assert parts == [parts[0]] + parts[1..];
    }
  }

  predicate StartsWith(s: string, prefix: string)
  {
    |prefix| <= |s| && s[..|prefix|] == prefix
  }

  predicate EndsWith(s: string, suffix: string)
  {
    |suffix| <= |s| && s[|s| - |suffix|..] == suffix
  }

  /** `pat` occurs in `s` starting at index `i`. */
  predicate OccursAt(s: string, pat: string, i: int)
  {
    0 <= i && i + |pat| <= |s| && s[i..i + |pat|] == pat
  }

  /**
   * JavaScript `s.replace(pat, rep)` with a string pattern: only the first
   * occurrence of a non-empty `pat` is replaced.
   */
  function ReplaceFirst(s: string, pat: string, rep: string): string
    requires |pat| > 0
    decreases |s|
  {
    if |s| < |pat| then s
    else if s[..|pat|] == pat then rep + s[|pat|..]
    else [s[0]] + ReplaceFirst(s[1..], pat, rep)
  }

  /** Without an occurrence nothing is replaced; an occurrence at the start is the one replaced. */
  lemma {:induction false} ReplaceFirstSpec(s: string, pat: string, rep: string)
    requires |pat| > 0
    ensures (forall i :: 0 <= i ==> !OccursAt(s, pat, i)) ==> ReplaceFirst(s, pat, rep) == s
    ensures StartsWith(s, pat) ==> ReplaceFirst(s, pat, rep) == rep + s[|pat|..]
    decreases |s|
  {
    if |s| >= |pat| && s[..|pat|] != pat {
      if forall i :: 0 <= i ==> !OccursAt(s, pat, i) {
        forall i | 0 <= i ensures !OccursAt(s[1..], pat, i) {
          OccursAtShift(s, pat, i);
        }
        ReplaceFirstSpec(s[1..], pat, rep);
      }
    } else if |s| >= |pat| {
      assert OccursAt(s, pat, 0);
    }
  }

  /** The part of `s` before the first `c` (all of `s` when there is none): `s.split(c)[0]`. */
  function BeforeFirst(s: string, c: char): (r: string)
    ensures r == Split(s, c)[0]
    ensures c !in r
    ensures StartsWith(s, r)
    ensures |r| < |s| ==> s[|r|] == c
    decreases |s|
  {
    if s == [] then ""
    else if s[0] == c then ""
    else [s[0]] + BeforeFirst(s[1..], c)
  }

  lemma OccursAtShift(s: string, pat: string, i: int)
    requires |s| > 0 && 0 <= i
    ensures OccursAt(s[1..], pat, i) == OccursAt(s, pat, i + 1)
  {
    if i + |pat| <= |s[1..]| {
      assert s[1..][i..i + |pat|] == s[i + 1..i + 1 + |pat|];
    }
  }

  lemma NoOccurrenceInTail(a: string, b: string, pat: string)
    requires |a| > 0
    requires forall i :: 0 <= i < |a| ==> !OccursAt(a + b, pat, i)
    ensures forall i :: 0 <= i < |a| - 1 ==> !OccursAt(a[1..] + b, pat, i)
  {
    var s := a + b;
    assert s[1..] == a[1..] + b;
    forall i | 0 <= i < |a| - 1 ensures !OccursAt(a[1..] + b, pat, i) {
      assert !OccursAt(s, pat, i + 1);
      OccursAtShift(s, pat, i);
    }
  }

  /** When `pat` does not start anywhere inside `a`, replacing in `a + b` only touches `b`. */
  lemma {:induction false} ReplaceFirstSkipsPrefix(a: string, b: string, pat: string, rep: string)
    requires |pat| > 0
    requires forall i :: 0 <= i < |a| ==> !OccursAt(a + b, pat, i)
    ensures ReplaceFirst(a + b, pat, rep) == a + ReplaceFirst(b, pat, rep)
    decreases |a|
  {
    var s := a + b;
    if a == [] {
      assert s == b;
    } else if |s| < |pat| {
      assert ReplaceFirst(s, pat, rep) == s;
    } else {
      assert !OccursAt(s, pat, 0);
      assert s[..|pat|] != pat;
      assert ReplaceFirst(s, pat, rep) == [s[0]] + ReplaceFirst(s[1..], pat, rep);
      assert s[1..] == a[1..] + b;
      NoOccurrenceInTail(a, b, pat);
      ReplaceFirstSkipsPrefix(a[1..], b, pat, rep);
      assert s[0] == a[0] && a == [a[0]] + a[1..];
      assert [s[0]] + (a[1..] + ReplaceFirst(b, pat, rep)) == a + ReplaceFirst(b, pat, rep);
    }
  }

  /** The part before the first `c` of `a + [c] + b`, when `a` has no `c`, is `a`. */
  lemma {:induction false} BeforeFirstOfJoin(a: string, c: char, b: string)
    requires c !in a
    ensures BeforeFirst(a + [c] + b, c) == a
    decreases |a|
  {
    if a != [] {
      assert (a + [c] + b)[1..] == a[1..] + [c] + b;
      BeforeFirstOfJoin(a[1..], c, b);
    }
  }

  /** A string without `c` is its own part before the first `c`. */
  lemma {:induction false} BeforeFirstAbsent(a: string, c: char)
    requires c !in a
    ensures BeforeFirst(a, c) == a
    decreases |a|
  {
    if a != [] {
      BeforeFirstAbsent(a[1..], c);
    }
  }
}
