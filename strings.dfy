/** String helpers with the semantics of the JavaScript built-ins the source uses:
    `Array.prototype.join`, `String.prototype.split` on one character, and
    `String.prototype.replace` with a global regular expression that matches a literal. */
module Strings {

  /** `parts.join(sep)`. */
  function Join(parts: seq<string>, sep: string): string
  {
    if |parts| == 0 then ""
    else if |parts| == 1 then parts[0]
    else parts[0] + sep + Join(parts[1..], sep)
  }

  /** Position of the first occurrence of `c` in `s`. */
  function IndexOf(s: string, c: char): (i: nat)
    requires c in s
    ensures i < |s| && s[i] == c && c !in s[..i]
  {
    if s[0] == c then 0
    else
      assert c in s[1..] by { var k :| 0 <= k < |s| && s[k] == c; assert s[1..][k - 1] == c; }
      1 + IndexOf(s[1..], c)
  }

  /** `s.split(sep)`: the pieces between the separators, always at least one. */
  function Split(s: string, sep: char): (parts: seq<string>)
    ensures |parts| >= 1
    decreases |s|
  {
    if sep in s then
      var i := IndexOf(s, sep);
      [s[..i]] + Split(s[i + 1..], sep)
    else [s]
  }

  /** Joining lines that contain no separator and splitting the result gives the lines back. */
  lemma {:induction false} SplitJoin(lines: seq<string>, sep: char)
    requires |lines| > 0
    requires forall k :: 0 <= k < |lines| ==> sep !in lines[k]
    ensures Split(Join(lines, [sep]), sep) == lines
  {
    if |lines| > 1 {
      var rest := Join(lines[1..], [sep]);
      var s := lines[0] + [sep] + rest;
      assert Join(lines, [sep]) == s;
      assert s[|lines[0]|] == sep;
      var i := IndexOf(s, sep);
      assert forall k :: 0 <= k < |lines[0]| ==> s[k] == lines[0][k];
      assert i >= |lines[0]|;
      assert forall k :: 0 <= k < i ==> s[..i][k] == s[k];
      assert i == |lines[0]|;
      assert s[..i] == lines[0];
      assert s[i + 1..] == rest;
      SplitJoin(lines[1..], sep);
    }
  }

  /** `pat` occurs in `s` starting at position `i`. */
  predicate OccursAt(s: string, pat: string, i: nat)
  {
    i + |pat| <= |s| && s[i..i + |pat|] == pat
  }

  /** No occurrence of `pat` starts before position `n` of `s`. */
  predicate NoneStartsBefore(s: string, pat: string, n: nat)
  {
    forall i: nat :: i < n ==> !OccursAt(s, pat, i)
  }

  /** `pat` does not occur anywhere in `s`. */
  predicate Absent(s: string, pat: string)
  {
    NoneStartsBefore(s, pat, |s|)
  }

  /** `s.replace(/pat/g, rep)` for a pattern that matches the literal `pat`: the
      occurrences are found left to right and do not overlap. */
  function ReplaceAll(s: string, pat: string, rep: string): string
    requires |pat| > 0
    decreases |s|
  {
    if |s| < |pat| then s
    else if s[..|pat|] == pat then rep + ReplaceAll(s[|pat|..], pat, rep)
    else [s[0]] + ReplaceAll(s[1..], pat, rep)
  }

  /** A character that differs from the pattern's character at the same offset rules out
      an occurrence. */
  lemma MismatchAt(s: string, pat: string, i: nat, j: nat)
    requires j < |pat| && i + j < |s| && s[i + j] != pat[j]
    ensures !OccursAt(s, pat, i)
  {
    if i + |pat| <= |s| {
      assert s[i..i + |pat|][j] == s[i + j];
    }
  }

  /** Text before the first occurrence is copied unchanged. */
  lemma {:induction false} ReplaceAllKeepsPrefix(a: string, b: string, pat: string, rep: string)
    requires |pat| > 0
    requires NoneStartsBefore(a + b, pat, |a|)
    ensures ReplaceAll(a + b, pat, rep) == a + ReplaceAll(b, pat, rep)
    decreases |a|
  {
    if |a| > 0 {
      var s := a + b;
      if |s| < |pat| {
        assert ReplaceAll(s, pat, rep) == s;
        assert ReplaceAll(b, pat, rep) == b;
      } else {
        assert !OccursAt(s, pat, 0);
        assert s[..|pat|] != pat;
        assert s[1..] == a[1..] + b;
        forall i: nat | i < |a[1..]|
          ensures !OccursAt(a[1..] + b, pat, i)
        {
          assert !OccursAt(s, pat, i + 1);
          if i + |pat| <= |a[1..] + b| {
            assert (a[1..] + b)[i..i + |pat|] == s[i + 1..i + 1 + |pat|];
          }
        }
        ReplaceAllKeepsPrefix(a[1..], b, pat, rep);
        assert ReplaceAll(s, pat, rep) == [s[0]] + ReplaceAll(a[1..] + b, pat, rep);
        assert [s[0]] + a[1..] == a;
        assert [s[0]] + (a[1..] + ReplaceAll(b, pat, rep)) == ([s[0]] + a[1..]) + ReplaceAll(b, pat, rep);
      }
    } else {
      assert a + b == b;
    }
  }

  /** An occurrence at the front is replaced and the scan resumes after it. */
  lemma ReplaceAllAtFront(b: string, pat: string, rep: string)
    requires |pat| > 0
    ensures ReplaceAll(pat + b, pat, rep) == rep + ReplaceAll(b, pat, rep)
  {
    assert (pat + b)[..|pat|] == pat;
    assert (pat + b)[|pat|..] == b;
  }

  /** Text that holds no occurrence is left as it is. */
  lemma ReplaceAllAbsent(s: string, pat: string, rep: string)
    requires |pat| > 0 && Absent(s, pat)
    ensures ReplaceAll(s, pat, rep) == s
  {
    assert s + [] == s;
    ReplaceAllKeepsPrefix(s, [], pat, rep);
    assert ReplaceAll([], pat, rep) == [];
  }

  /** A pattern character that never occurs in `s` rules out every occurrence. */
  lemma AbsentByChar(s: string, pat: string, j: nat)
    requires j < |pat| && pat[j] !in s
    ensures Absent(s, pat)
  {
    forall i: nat | i < |s| ensures !OccursAt(s, pat, i) {
      if i + j < |s| {
        MismatchAt(s, pat, i, j);
      }
    }
  }

  /** No occurrence starts inside a text that lacks the pattern's first character. */
  lemma NoneStartsInside(a: string, b: string, pat: string)
    requires |pat| > 0 && pat[0] !in a
    ensures NoneStartsBefore(a + b, pat, |a|)
  {
    forall i: nat | i < |a| ensures !OccursAt(a + b, pat, i) {
      assert (a + b)[i] == a[i];
      MismatchAt(a + b, pat, i, 0);
    }
  }

  /** When no occurrence starts in `a`, an occurrence in `a + b` would have to lie in `b`. */
  lemma AbsentJoin(a: string, b: string, pat: string)
    requires NoneStartsBefore(a + b, pat, |a|) && Absent(b, pat)
    ensures Absent(a + b, pat)
  {
    var s := a + b;
    forall i: nat | |a| <= i < |s| ensures !OccursAt(s, pat, i) {
      assert !OccursAt(b, pat, i - |a|);
      if i + |pat| <= |s| {
        assert s[i..i + |pat|] == b[i - |a|..i - |a| + |pat|];
      }
    }
  }

  /** `s.endsWith(suffix)`. */
  predicate EndsWith(s: string, suffix: string)
  {
    |suffix| <= |s| && s[|s| - |suffix|..] == suffix
  }

  /** The number of occurrences of `c` in `s`. */
  function Count(s: string, c: char): nat
  {
    if |s| == 0 then 0
    else (if s[0] == c then 1 else 0) + Count(s[1..], c)
  }

  /** Counting distributes over concatenation. */
  lemma {:induction false} CountAppend(a: string, b: string, c: char)
    ensures Count(a + b, c) == Count(a, c) + Count(b, c)
    decreases |a|
  {
    if |a| > 0 {
      assert (a + b)[1..] == a[1..] + b;
      CountAppend(a[1..], b, c);
    } else {
      assert a + b == b;
    }
  }

  /** A character that does not occur is counted zero times. */
  lemma {:induction false} CountAbsent(s: string, c: char)
    requires c !in s
    ensures Count(s, c) == 0
    decreases |s|
  {
    if |s| > 0 {
      assert s[0] in s;
      assert forall k :: 0 <= k < |s[1..]| ==> s[1..][k] == s[k + 1];
      CountAbsent(s[1..], c);
    }
  }

  /** Counting over four consecutive pieces. */
  lemma CountParts(a: string, b: string, c: string, d: string, ch: char)
    ensures Count(a + b + c + d, ch) == Count(a, ch) + Count(b, ch) + Count(c, ch) + Count(d, ch)
  {
    CountAppend(a + b + c, d, ch);
    CountAppend(a + b, c, ch);
    CountAppend(a, b, ch);
  }
}
