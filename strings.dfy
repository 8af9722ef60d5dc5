/** The string operations the script borrows from Python: substring search
    (`pat in s`), `str.replace`, `str.rstrip`, and joining and splitting a
    path on its separator. */
module Strings {
  import opened Wrappers

  /** `pat` occurs in `s` starting at index `i`. */
  ghost predicate OccursAt(s: string, pat: string, i: int) {
    0 <= i && i + |pat| <= |s| && s[i..i + |pat|] == pat
  }

  /** The specification of Python's `pat in s`. */
  ghost predicate Contains(s: string, pat: string) {
    exists i :: OccursAt(s, pat, i)
  }

  /** The leftmost occurrence of `pat` in `s` at or after `from`. */
  function FindFrom(s: string, pat: string, from: nat): (r: Option<nat>)
    decreases |s| - from
    ensures r.Some? ==> from <= r.value && OccursAt(s, pat, r.value)
    ensures r.Some? ==> forall j :: from <= j < r.value ==> !OccursAt(s, pat, j)
    ensures r.None? ==> forall j :: from <= j ==> !OccursAt(s, pat, j)
  {
    if from + |pat| > |s| then None
    else if s[from..from + |pat|] == pat then Some(from)
    else FindFrom(s, pat, from + 1)
  }

  /** Python's `pat in s`, computed by a left-to-right scan. */
  predicate In(pat: string, s: string)
    ensures In(pat, s) <==> Contains(s, pat)
  {
    FindFrom(s, pat, 0).Some?
  }

  /** Python's `s.replace(pat, rep)` for a non-empty `pat`: every
      non-overlapping occurrence, scanning from the left, is replaced. */
  function ReplaceAll(s: string, pat: string, rep: string): string
    requires pat != []
    decreases |s|
  {
    if |s| < |pat| then s
    else if s[..|pat|] == pat then rep + ReplaceAll(s[|pat|..], pat, rep)
    else [s[0]] + ReplaceAll(s[1..], pat, rep)
  }

  lemma {:induction false} ReplaceAllNeverShrinks(s: string, pat: string, rep: string)
    requires pat != [] && |rep| >= |pat|
    ensures |ReplaceAll(s, pat, rep)| >= |s|
    ensures |rep| > |pat| && Contains(s, pat) ==> |ReplaceAll(s, pat, rep)| > |s|
    decreases |s|
  {
    if |s| < |pat| {
      forall i ensures !OccursAt(s, pat, i) { }
    } else if s[..|pat|] == pat {
      ReplaceAllNeverShrinks(s[|pat|..], pat, rep);
    } else {
      ReplaceAllNeverShrinks(s[1..], pat, rep);
      if |rep| > |pat| && Contains(s, pat) {
        var i :| OccursAt(s, pat, i);
        assert i != 0;
        assert s[1..][i - 1..i - 1 + |pat|] == s[i..i + |pat|];
        assert OccursAt(s[1..], pat, i - 1);
      }
    }
  }

  lemma {:induction false} ReplaceAllAbsent(s: string, pat: string, rep: string)
    requires pat != [] && !Contains(s, pat)
    ensures ReplaceAll(s, pat, rep) == s
    decreases |s|
  {
    if |s| >= |pat| {
      assert !OccursAt(s, pat, 0);
      forall i | OccursAt(s[1..], pat, i) ensures OccursAt(s, pat, i + 1) {
        assert s[1..][i..i + |pat|] == s[i + 1..i + 1 + |pat|];
      }
      ReplaceAllAbsent(s[1..], pat, rep);
    }
  }

  /** When the replacement is longer than the pattern, `replace` leaves a
      string unchanged exactly when the pattern does not occur in it. */
  lemma ReplaceAllIdentity(s: string, pat: string, rep: string)
    requires pat != [] && |rep| > |pat|
    ensures ReplaceAll(s, pat, rep) == s <==> !Contains(s, pat)
  {
    ReplaceAllNeverShrinks(s, pat, rep);
    if !Contains(s, pat) {
      ReplaceAllAbsent(s, pat, rep);
    }
  }

  /** A character that is not part of the pattern splits the replacement:
      no occurrence can straddle it. */
  lemma {:induction false} ReplaceAllAround(a: string, c: char, b: string, pat: string, rep: string)
    requires pat != [] && c !in pat
    ensures ReplaceAll(a + [c] + b, pat, rep) == ReplaceAll(a, pat, rep) + [c] + ReplaceAll(b, pat, rep)
    decreases |a|
  {
    var s := a + [c] + b;
    if |s| < |pat| {
      ReplaceAllShort(a, pat, rep);
      ReplaceAllShort(b, pat, rep);
    } else if s[..|pat|] == pat {
      ReplaceAllAroundMatch(a, c, b, pat, rep);
    } else if a == [] {
      assert s == [c] + b && s[1..] == b;
      assert ReplaceAll(s, pat, rep) == [c] + ReplaceAll(b, pat, rep);
    } else {
      ReplaceAllAroundSkip(a, c, b, pat, rep);
    }
  }

  lemma {:induction false} ReplaceAllAroundMatch(a: string, c: char, b: string, pat: string, rep: string)
    requires pat != [] && c !in pat
    requires |a + [c] + b| >= |pat| && (a + [c] + b)[..|pat|] == pat
    ensures ReplaceAll(a + [c] + b, pat, rep) == ReplaceAll(a, pat, rep) + [c] + ReplaceAll(b, pat, rep)
    decreases |a|, 0
  {
    var s := a + [c] + b;
    PrefixAvoids(s, pat, c);
    assert s[|a|] == c;
    assert a[..|pat|] == pat;
    ReplaceAllMatchFirst(a, pat, rep);
    ReplaceAllMatchFirst(s, pat, rep);
    assert s[|pat|..] == a[|pat|..] + [c] + b;
    ReplaceAllAround(a[|pat|..], c, b, pat, rep);
    Regroup(rep, ReplaceAll(a[|pat|..], pat, rep), [c], ReplaceAll(b, pat, rep));
  }

  /** An occurrence at the front is replaced and the scan resumes after it. */
  lemma ReplaceAllMatchFirst(s: string, pat: string, rep: string)
    requires pat != [] && |s| >= |pat| && s[..|pat|] == pat
    ensures ReplaceAll(s, pat, rep) == rep + ReplaceAll(s[|pat|..], pat, rep)
  {
  }

  lemma {:induction false} ReplaceAllAroundSkip(a: string, c: char, b: string, pat: string, rep: string)
    requires pat != [] && c !in pat && a != []
    requires |a + [c] + b| >= |pat| && (a + [c] + b)[..|pat|] != pat
    ensures ReplaceAll(a + [c] + b, pat, rep) == ReplaceAll(a, pat, rep) + [c] + ReplaceAll(b, pat, rep)
    decreases |a|, 0
  {
    var s := a + [c] + b;
    if |a| >= |pat| {
      assert a[..|pat|] == s[..|pat|];
    }
    ReplaceAllSkipFirst(a, pat, rep);
    ReplaceAllSkipFirst(s, pat, rep);
    assert s[1..] == a[1..] + [c] + b && s[0] == a[0];
    ReplaceAllAround(a[1..], c, b, pat, rep);
    Regroup([a[0]], ReplaceAll(a[1..], pat, rep), [c], ReplaceAll(b, pat, rep));
  }

  lemma Regroup(x: string, t: string, y: string, r: string)
    ensures x + (t + y + r) == (x + t) + y + r
  {
  }

  /** Where no occurrence starts at the front, the first character is
      copied and the scan moves on. */
  lemma ReplaceAllSkipFirst(s: string, pat: string, rep: string)
    requires pat != [] && s != [] && (|s| < |pat| || s[..|pat|] != pat)
    ensures ReplaceAll(s, pat, rep) == [s[0]] + ReplaceAll(s[1..], pat, rep)
  {
    if |s| < |pat| {
      ReplaceAllShort(s, pat, rep);
      ReplaceAllShort(s[1..], pat, rep);
      assert s == [s[0]] + s[1..];
    }
  }

  lemma PrefixAvoids(s: string, pat: string, c: char)
    requires |pat| <= |s| && s[..|pat|] == pat && c !in pat
    ensures forall k :: 0 <= k < |pat| ==> s[k] != c
  {
    forall k | 0 <= k < |pat| ensures s[k] != c {
      assert s[k] == pat[k];
    }
  }

  lemma ReplaceAllShort(s: string, pat: string, rep: string)
    requires pat != [] && |s| < |pat|
    ensures ReplaceAll(s, pat, rep) == s
  {
  }

  /** A prefix free of the pattern's first character is copied unchanged,
      and the first occurrence after it is the one replaced. */
  lemma {:induction false} ReplaceAllAfterPlainPrefix(a: string, b: string, pat: string, rep: string)
    requires pat != [] && pat[0] !in a
    ensures ReplaceAll(a + pat + b, pat, rep) == a + rep + ReplaceAll(b, pat, rep)
    decreases |a|
  {
    var s := a + pat + b;
    if a == [] {
      assert s[..|pat|] == pat && s[|pat|..] == b;
    } else {
      assert s[..|pat|] != pat by {
        assert s[..|pat|][0] == a[0] != pat[0];
      }
      ReplaceAllSkipFirst(s, pat, rep);
      assert s[1..] == a[1..] + pat + b && s[0] == a[0];
      ReplaceAllAfterPlainPrefix(a[1..], b, pat, rep);
      Regroup([a[0]], a[1..], rep, ReplaceAll(b, pat, rep));
      assert a == [a[0]] + a[1..];
    }
  }

  /** Python's `s.rstrip(chars)`: the longest prefix of `s` that does not
      end in a character of `chars`; the three ensures clauses pin it down. */
  function RStrip(s: string, chars: set<char>): (r: string)
    ensures r <= s
    ensures forall k :: |r| <= k < |s| ==> s[k] in chars
    ensures r == [] || r[|r| - 1] !in chars
    decreases |s|
  {
    if s != [] && s[|s| - 1] in chars then RStrip(s[..|s| - 1], chars) else s
  }

  /** The path `segs[0]/segs[1]/...`, as Python's f-strings build it. */
  function JoinPath(segs: seq<string>, sep: char): string
    requires segs != []
  {
    if |segs| == 1 then segs[0] else segs[0] + [sep] + JoinPath(segs[1..], sep)
  }

  /** Python's `s.split(sep)` for a one-character separator. */
  function Split(s: string, sep: char): (parts: seq<string>)
    ensures parts != []
    decreases |s|
  {
    if s == [] then [[]]
    else
      var rest := Split(s[1..], sep);
      if s[0] == sep then [[]] + rest else [[s[0]] + rest[0]] + rest[1..]
  }

  lemma {:induction false} SplitPlain(a: string, sep: char)
    requires sep !in a
    ensures Split(a, sep) == [a]
    decreases |a|
  {
    if a != [] {
      SplitPlain(a[1..], sep);
      assert a == [a[0]] + a[1..];
    }
  }

  lemma {:induction false} SplitAtSeparator(a: string, sep: char, b: string)
    requires sep !in a
    ensures Split(a + [sep] + b, sep) == [a] + Split(b, sep)
    decreases |a|
  {
    var s := a + [sep] + b;
    if a == [] {
      assert s[0] == sep && s[1..] == b;
    } else {
      assert s[1..] == a[1..] + [sep] + b;
      SplitAtSeparator(a[1..], sep, b);
      assert a == [a[0]] + a[1..];
    }
  }

  /** Splitting a joined path gives back its segments when none of them
      contains the separator. */
  lemma {:induction false} SplitJoinPath(segs: seq<string>, sep: char)
    requires segs != []
    requires forall k :: 0 <= k < |segs| ==> sep !in segs[k]
    ensures Split(JoinPath(segs, sep), sep) == segs
    decreases |segs|
  {
    if |segs| == 1 {
      SplitPlain(segs[0], sep);
    } else {
      SplitJoinPath(segs[1..], sep);
      SplitAtSeparator(segs[0], sep, JoinPath(segs[1..], sep));
      assert segs == [segs[0]] + segs[1..];
    }
  }
}
