/** `convert_drive_link_to_direct_url`: a share link of the file store is
    turned into a direct image URL by a regular-expression search for
    `/d/([a-zA-Z0-9_-]+)/`. */
module DriveLink {
  import opened Wrappers
  import opened Strings

  const DirectPrefix: string := "https://drive.google.com/uc?id="

  /** The `ValueError` raised for a link without a file-id segment. */
  datatype LinkError = InvalidLinkFormat

  /** The character class `[a-zA-Z0-9_-]`. */
  predicate IsIdChar(ch: char) {
    ('a' <= ch <= 'z') || ('A' <= ch <= 'Z') || ('0' <= ch <= '9') || ch == '_' || ch == '-'
  }

  /** The regular expression matches at `i` with its group ending at `k`:
      "/d/", then one or more id characters up to `k`, then "/". */
  ghost predicate RegexMatch(s: string, i: int, k: int) {
    0 <= i && i + 3 < k < |s| && s[i..i + 3] == "/d/" && s[k] == '/'
    && forall m :: i + 3 <= m < k ==> IsIdChar(s[m])
  }

  /** The end of the longest run of id characters starting at `j`. */
  function RunEnd(s: string, j: nat): (k: nat)
    requires j <= |s|
    ensures j <= k <= |s|
    ensures forall m :: j <= m < k ==> IsIdChar(s[m])
    ensures k == |s| || !IsIdChar(s[k])
    decreases |s| - j
  {
    if j < |s| && IsIdChar(s[j]) then RunEnd(s, j + 1) else j
  }

  /** The match attempt at one position: the greedy group stops at the
      first non-id character, which must then be "/". */
  predicate MatchesAt(s: string, i: nat) {
    i + 3 <= |s| && s[i..i + 3] == "/d/"
    && var k := RunEnd(s, i + 3); i + 3 < k < |s| && s[k] == '/'
  }

  /** Backtracking cannot help the greedy group: "/" is not an id
      character, so the only possible end of the group is the end of the
      run. The attempt at `i` succeeds exactly when the regex matches
      there, and the group it yields is the only one. */
  lemma MatchesAtIsRegexMatch(s: string, i: nat)
    ensures MatchesAt(s, i) <==> exists k :: RegexMatch(s, i, k)
    ensures forall k :: RegexMatch(s, i, k) ==> k == RunEnd(s, i + 3)
  {
    forall k | RegexMatch(s, i, k) ensures k == RunEnd(s, i + 3) {
      RunEndAt(s, i + 3, k);
    }
    if MatchesAt(s, i) {
      assert RegexMatch(s, i, RunEnd(s, i + 3));
    }
  }

  /** The leftmost position at or after `from` where the search succeeds. */
  function SearchFrom(s: string, from: nat): (r: Option<nat>)
    decreases |s| - from
    ensures r.Some? ==> from <= r.value && MatchesAt(s, r.value)
    ensures r.Some? ==> forall j :: from <= j < r.value ==> !MatchesAt(s, j)
    ensures r.None? ==> forall j :: from <= j ==> !MatchesAt(s, j)
  {
    if from + 3 > |s| then None
    else if MatchesAt(s, from) then Some(from)
    else SearchFrom(s, from + 1)
  }

  /** `convert_drive_link_to_direct_url`. */
  function ConvertDriveLink(link: string): (r: Result<string, LinkError>)
    ensures r.Err? ==> forall j: nat :: !MatchesAt(link, j)
    ensures r.Ok? ==> exists i: nat ::
      (MatchesAt(link, i)
       && (forall j: nat :: j < i ==> !MatchesAt(link, j))
       && r.value == DirectPrefix + link[i + 3..RunEnd(link, i + 3)])
  {
    match SearchFrom(link, 0)
    case None => Err(InvalidLinkFormat)
    case Some(i) => Ok(DirectPrefix + link[i + 3..RunEnd(link, i + 3)])
  }

  /** The conversion fails exactly when the regular expression matches
      nowhere in the link. */
  lemma ConvertFailsIffNoMatch(link: string)
    ensures ConvertDriveLink(link).Err? <==> forall i, k :: !RegexMatch(link, i, k)
  {
    if ConvertDriveLink(link).Err? {
      forall i, k ensures !RegexMatch(link, i, k) {
        if 0 <= i {
          MatchesAtIsRegexMatch(link, i);
        }
      }
    } else {
      var i: nat :| MatchesAt(link, i);
      MatchesAtIsRegexMatch(link, i);
    }
  }

  /** A share link `<pre>/d/<id>/<rest>` whose prefix holds no earlier match
      converts to the direct URL of `<id>`. */
  lemma ConvertShareLink(pre: string, id: string, rest: string)
    requires !Contains(pre + "/", "/d/")
    requires id != [] && forall m :: 0 <= m < |id| ==> IsIdChar(id[m])
    ensures ConvertDriveLink(pre + "/d/" + id + "/" + rest) == Ok(DirectPrefix + id)
  {
    var s := pre + "/d/" + id + "/" + rest;
    var i, k := |pre|, |pre| + 3 + |id|;
    JoinParts(pre, "/d/", id, "/", rest);
    assert s[k] == '/' by {
      assert s[k..k + 1] == "/";
    }
    MatchAtSegment(s, i, id);
    NoMatchBefore(pre, s);
    ConvertAt(s, i, id);
  }

  /** The conversion of a link whose first match is at `i`, with the
      group `id`. */
  lemma ConvertAt(s: string, i: nat, id: string)
    requires MatchesAt(s, i) && forall j: nat :: j < i ==> !MatchesAt(s, j)
    requires RunEnd(s, i + 3) == i + 3 + |id| && s[i + 3..i + 3 + |id|] == id
    ensures ConvertDriveLink(s) == Ok(DirectPrefix + id)
  {
    assert SearchFrom(s, 0) == Some(i);
  }

  /** "/d/", an id and "/" at `i`: the expression matches there, with the
      group ending at that "/". */
  lemma MatchAtSegment(s: string, i: nat, id: string)
    requires id != [] && forall m :: 0 <= m < |id| ==> IsIdChar(id[m])
    requires i + 3 + |id| < |s| && s[i..i + 3] == "/d/"
    requires s[i + 3..i + 3 + |id|] == id && s[i + 3 + |id|] == '/'
    ensures MatchesAt(s, i) && RunEnd(s, i + 3) == i + 3 + |id|
  {
    IdRun(s, i + 3, id);
  }

  /** Where the parts of `a + b + c + d + e` sit. */
  lemma JoinParts(a: string, b: string, c: string, d: string, e: string)
    ensures var s := a + b + c + d + e;
      && s[..|a|] == a
      && s[|a|..|a| + |b|] == b
      && s[|a| + |b|..|a| + |b| + |c|] == c
      && s[|a| + |b| + |c|..|a| + |b| + |c| + |d|] == d
  {
    var s := a + b + c + d + e;
    assert s[|a|..|a| + |b|] == b by {
      forall m | 0 <= m < |b| ensures s[|a| + m] == b[m] {
        assert s[|a| + m] == (a + b)[|a| + m];
      }
    }
  }

  /** An id followed by "/" is exactly one greedy run of id characters. */
  lemma IdRun(s: string, j: nat, id: string)
    requires forall m :: 0 <= m < |id| ==> IsIdChar(id[m])
    requires j + |id| < |s| && s[j..j + |id|] == id && s[j + |id|] == '/'
    ensures RunEnd(s, j) == j + |id|
  {
    forall m | j <= m < j + |id|
      ensures IsIdChar(s[m])
    {
      assert s[m] == s[j..j + |id|][m - j];
    }
    RunEndAt(s, j, j + |id|);
  }

  /** No match starts inside `<pre>` when `<pre>/` holds no "/d/" and
      "/d/" follows `<pre>`. */
  lemma NoMatchBefore(pre: string, s: string)
    requires !Contains(pre + "/", "/d/")
    requires |pre| + 3 <= |s| && s[..|pre|] == pre && s[|pre|..|pre| + 3] == "/d/"
    ensures forall j: nat :: j < |pre| ==> !MatchesAt(s, j)
  {
    var i := |pre|;
    assert s[i] == '/' && s[i + 1] == 'd' by {
      assert s[i..i + 3][0] == s[i] && s[i..i + 3][1] == s[i + 1];
    }
    assert s[..i + 1] == pre + "/" by {
      assert s[..i + 1] == s[..i] + [s[i]];
    }
    forall j: nat | j < i ensures !MatchesAt(s, j) {
      if j + 3 <= i + 1 {
        assert (pre + "/")[j..j + 3] == s[j..j + 3];
        assert !OccursAt(pre + "/", "/d/", j);
      } else {
        assert s[j..j + 3][2] == s[i + 1];
      }
    }
  }

  lemma {:induction false} RunEndAt(s: string, j: nat, k: nat)
    requires j <= k < |s| && !IsIdChar(s[k])
    requires forall m :: j <= m < k ==> IsIdChar(s[m])
    ensures RunEnd(s, j) == k
    decreases k - j
  {
    if j < k {
      RunEndAt(s, j + 1, k);
    }
  }

  /** A prefix without "/" can hold no earlier match. */
  lemma PlainPrefixHasNoMatch(pre: string)
    requires '/' !in pre
    ensures !Contains(pre + "/", "/d/")
  {
    var s := pre + "/";
    forall j ensures !OccursAt(s, "/d/", j) {
      if 0 <= j < |pre| {
        assert s[j] == pre[j] != '/';
        assert j + 3 > |s| || s[j..j + 3][0] != '/';
      }
    }
  }

  /** The link shape of the worked example: ".../d/ABC123/view". */
  lemma ConvertExample()
    ensures ConvertDriveLink("..." + "/d/" + "ABC123" + "/" + "view") == Ok(DirectPrefix + "ABC123")
  {
    var id := "ABC123";
    assert id == ['A', 'B', 'C', '1', '2', '3'];
    assert forall m :: 0 <= m < |id| ==> IsIdChar(id[m]);
    PlainPrefixHasNoMatch("...");
    ConvertShareLink("...", id, "view");
  }

  /** A link in which "/d/" never occurs is rejected. */
  lemma ConvertWithoutSegment(link: string)
    requires !Contains(link, "/d/")
    ensures ConvertDriveLink(link) == Err(InvalidLinkFormat)
  {
    forall j: nat ensures !MatchesAt(link, j) {
      if MatchesAt(link, j) {
        assert OccursAt(link, "/d/", j);
      }
    }
  }
}
