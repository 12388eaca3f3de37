/** The few Python string operations the two pipelines use, over
    `string` = `seq<char>`: `str.strip`, `str.split(sep, 1)`,
    `str.replace(pat, "")`, `sep.join` and `str.lower`. */
module Text {
  import opened Common

  /** Python's `str.isspace` for a single character. */
  predicate IsSpace(c: char) {
    c == ' ' || ('\t' <= c <= '\r') || ('\U{1c}' <= c <= '\U{1f}') ||
    c == '\U{85}' || c == '\U{a0}' || c == '\U{1680}' ||
    ('\U{2000}' <= c <= '\U{200a}') || c == '\U{2028}' || c == '\U{2029}' ||
    c == '\U{202f}' || c == '\U{205f}' || c == '\U{3000}'
  }

  /** Letters are not whitespace. */
  lemma LetterNotSpace(c: char)
    requires 'A' <= c <= 'Z' || 'a' <= c <= 'z'
    ensures !IsSpace(c)
  {
  }

  predicate AllSpace(s: string) {
    forall k :: 0 <= k < |s| ==> IsSpace(s[k])
  }

  /** `s` neither starts nor ends with whitespace. */
  predicate Unpadded(s: string) {
    s == [] || (!IsSpace(s[0]) && !IsSpace(s[|s| - 1]))
  }

  /** `str.lstrip()`: drops the leading whitespace and nothing else. */
  function TrimStart(s: string): (r: string)
    ensures |r| <= |s| && r == s[|s| - |r|..]
    ensures AllSpace(s[..|s| - |r|])
    ensures r == [] || !IsSpace(r[0])
  {
    if |s| > 0 && IsSpace(s[0]) then
      var r := TrimStart(s[1..]);
      assert s[..|s| - |r|] == [s[0]] + s[1..][..|s[1..]| - |r|];
      r
    else s
  }

  /** `str.rstrip()`: drops the trailing whitespace and nothing else. */
  function TrimEnd(s: string): (r: string)
    ensures |r| <= |s| && r == s[..|r|]
    ensures AllSpace(s[|r|..])
    ensures r == [] || !IsSpace(r[|r| - 1])
  {
    if |s| > 0 && IsSpace(s[|s| - 1]) then
      var r := TrimEnd(s[..|s| - 1]);
      assert s[|r|..] == s[..|s| - 1][|r|..] + [s[|s| - 1]];
      r
    else s
  }

  /** `str.strip()`. */
  function Strip(s: string): (r: string)
    ensures |r| <= |s|
    ensures Unpadded(r)
  {
    TrimEnd(TrimStart(s))
  }

  lemma {:induction false} TrimStartPadded(a: string, m: string)
    requires AllSpace(a)
    requires m == [] || !IsSpace(m[0])
    ensures TrimStart(a + m) == m
  {
    if a == [] {
      assert a + m == m;
    } else {
      assert (a + m)[1..] == a[1..] + m;
      TrimStartPadded(a[1..], m);
    }
  }

  lemma {:induction false} TrimEndPadded(m: string, b: string)
    requires AllSpace(b)
    requires m == [] || !IsSpace(m[|m| - 1])
    ensures TrimEnd(m + b) == m
  {
    if b == [] {
      assert m + b == m;
    } else {
      assert (m + b)[..|m + b| - 1] == m + b[..|b| - 1];
      TrimEndPadded(m, b[..|b| - 1]);
    }
  }

  /** Strip takes exactly the padding off: whatever whitespace surrounds an
      unpadded core, the core is what remains. */
  lemma StripPadded(a: string, m: string, b: string)
    requires AllSpace(a) && AllSpace(b) && Unpadded(m)
    ensures Strip(a + m + b) == m
  {
    if m == [] {
      assert a + m + b == a + b;
      TrimStartPadded(a + b, []);
      assert a + b + [] == a + b;
    } else {
      assert a + m + b == a + (m + b);
      TrimStartPadded(a, m + b);
    }
    TrimEndPadded(m, b);
  }

  /** `pat` occurs in `s` starting at index `i`. */
  predicate OccursAt(s: string, pat: string, i: nat) {
    i + |pat| <= |s| && s[i..i + |pat|] == pat
  }

  /** Dropping the first character shifts every occurrence one place left. */
  lemma OccursShift(s: string, pat: string, k: nat)
    requires |s| > 0
    ensures OccursAt(s[1..], pat, k) <==> OccursAt(s, pat, k + 1)
  {
    if k + |pat| <= |s[1..]| {
      assert s[1..][k..k + |pat|] == s[k + 1..k + 1 + |pat|];
    }
  }

  /** `s.find(pat, i)`: the first index at or after `i` where `pat` occurs. */
  function FindFrom(s: string, pat: string, i: nat): (r: Option<nat>)
    requires i <= |s|
    ensures r.Some? ==> i <= r.value && OccursAt(s, pat, r.value)
    ensures r.Some? ==> forall k :: i <= k < r.value ==> !OccursAt(s, pat, k)
    ensures r.None? ==> forall k :: i <= k <= |s| ==> !OccursAt(s, pat, k)
    decreases |s| - i
  {
    if i + |pat| > |s| then None
    else if s[i..i + |pat|] == pat then Some(i)
    else FindFrom(s, pat, i + 1)
  }

  /** `s.split(sep, 1)` when `sep` occurs: the text before its first
      occurrence and the text after it. None when `sep` does not occur
      (where the source's two-name unpacking raises ValueError). */
  function SplitOnce(s: string, sep: string): (r: Option<(string, string)>)
    ensures r.Some? ==> r.value.0 + sep + r.value.1 == s
    ensures r.Some? ==> forall k :: 0 <= k < |r.value.0| ==> !OccursAt(s, sep, k)
    ensures r.None? <==> forall k :: 0 <= k <= |s| ==> !OccursAt(s, sep, k)
  {
    match FindFrom(s, sep, 0)
    case None => None
    case Some(i) =>
      assert s == s[..i] + s[i..i + |sep|] + s[i + |sep|..];
      Some((s[..i], s[i + |sep|..]))
  }

  /** The split is determined by the first occurrence: any decomposition
      `h + sep + t` with no earlier occurrence is the one SplitOnce finds. */
  lemma SplitOnceAt(s: string, sep: string, h: string, t: string)
    requires s == h + sep + t
    requires forall k :: 0 <= k < |h| ==> !OccursAt(s, sep, k)
    ensures SplitOnce(s, sep) == Some((h, t))
  {
    assert s[|h|..|h| + |sep|] == sep;
    assert OccursAt(s, sep, |h|);
    var r := SplitOnce(s, sep);
    assert r.Some?;
    var (h', t') := r.value;
    assert s[|h'|..|h'| + |sep|] == sep;
    assert OccursAt(s, sep, |h'|);
    assert |h'| == |h|;
    assert h' == s[..|h|] == h;
    assert t' == s[|h| + |sep|..] == t;
  }

  /** `s.replace(pat, "")`: scans left to right and drops every
      non-overlapping occurrence of `pat`. Python leaves `s` unchanged when
      `pat` is empty. */
  function RemoveAll(s: string, pat: string): (r: string)
    ensures |r| <= |s|
    decreases |s|
  {
    if |pat| == 0 || |s| < |pat| then s
    else if s[..|pat|] == pat then RemoveAll(s[|pat|..], pat)
    else [s[0]] + RemoveAll(s[1..], pat)
  }

  /** Without an occurrence of `pat`, nothing is removed. */
  lemma {:induction false} RemoveAllAbsent(s: string, pat: string)
    requires forall k :: 0 <= k <= |s| ==> !OccursAt(s, pat, k)
    ensures RemoveAll(s, pat) == s
    decreases |s|
  {
    if |pat| == 0 || |s| < |pat| {
    } else {
      assert !OccursAt(s, pat, 0);
      assert s[..|pat|] != pat;
      forall k | 0 <= k <= |s[1..]| ensures !OccursAt(s[1..], pat, k) {
        OccursShift(s, pat, k);
      }
      RemoveAllAbsent(s[1..], pat);
      assert s == [s[0]] + s[1..];
    }
  }

  /** Without an occurrence at the front, the first character is kept and
      the scan moves one place on. */
  lemma RemoveAllKeeps(s: string, pat: string)
    requires |pat| > 0 && |s| >= |pat| && !OccursAt(s, pat, 0)
    ensures RemoveAll(s, pat) == [s[0]] + RemoveAll(s[1..], pat)
  {
    assert s[..|pat|] != pat;
  }

  /** The first occurrence is dropped and the scan resumes right after it:
      with no occurrence starting inside `a`, removing from `a + pat + b`
      keeps `a` and continues on `b`. */
  lemma {:induction false} RemoveAllFirst(a: string, pat: string, b: string)
    requires |pat| > 0
    requires forall k :: 0 <= k < |a| ==> !OccursAt(a + pat + b, pat, k)
    ensures RemoveAll(a + pat + b, pat) == a + RemoveAll(b, pat)
    decreases |a|
  {
    var s := a + pat + b;
    if a == [] {
      assert s == pat + b;
      assert s[..|pat|] == pat;
      assert s[|pat|..] == b;
    } else {
      var s' := a[1..] + pat + b;
      assert s[1..] == s';
      RemoveAllKeeps(s, pat);
      forall k | 0 <= k < |a[1..]| ensures !OccursAt(s', pat, k) {
        OccursShift(s, pat, k);
      }
      RemoveAllFirst(a[1..], pat, b);
      assert [s[0]] + (a[1..] + RemoveAll(b, pat)) == a + RemoveAll(b, pat);
    }
  }

  /** `sep.join(xs)`. */
  function Join(sep: string, xs: seq<string>): string {
    if |xs| == 0 then ""
    else if |xs| == 1 then xs[0]
    else xs[0] + sep + Join(sep, xs[1..])
  }

  /** Joining one more item adds the separator and the item at the end, so
      the joined text holds every item, in order, separated by `sep`. */
  lemma {:induction false} JoinSnoc(sep: string, xs: seq<string>, x: string)
    ensures Join(sep, xs + [x]) == if xs == [] then x else Join(sep, xs) + sep + x
    decreases |xs|
  {
    if |xs| == 0 {
      assert xs + [x] == [x];
    } else if |xs| == 1 {
      assert xs + [x] == [xs[0], x];
      assert (xs + [x])[1..] == [x];
    } else {
      assert (xs + [x])[1..] == xs[1..] + [x];
      JoinSnoc(sep, xs[1..], x);
    }
  }

  /** The length of a join: every item plus one separator between neighbours. */
  function TotalLength(xs: seq<string>): nat {
    if xs == [] then 0 else |xs[0]| + TotalLength(xs[1..])
  }

  lemma {:induction false} JoinLength(sep: string, xs: seq<string>)
    requires xs != []
    ensures |Join(sep, xs)| == TotalLength(xs) + (|xs| - 1) * |sep|
    decreases |xs|
  {
    if |xs| > 1 {
      JoinLength(sep, xs[1..]);
    }
  }

  /** ASCII `str.lower` for one character. */
  function LowerChar(c: char): char {
    if 'A' <= c <= 'Z' then (c as int + 32) as char else c
  }

  function Lower(s: string): (r: string)
    ensures |r| == |s|
    ensures forall k :: 0 <= k < |s| ==> r[k] == LowerChar(s[k])
  {
    if s == [] then [] else [LowerChar(s[0])] + Lower(s[1..])
  }

  /** `s` spells the lower-case ASCII word `w` in any mixture of cases. */
  predicate SameIgnoringCase(s: string, w: string) {
    |s| == |w| &&
    forall k :: 0 <= k < |s| ==> s[k] == w[k] || ('a' <= w[k] <= 'z' && s[k] == (w[k] as int - 32) as char)
  }

  lemma LowerMatches(s: string, w: string)
    requires forall k :: 0 <= k < |w| ==> !('A' <= w[k] <= 'Z')
    ensures Lower(s) == w <==> SameIgnoringCase(s, w)
  {
    if SameIgnoringCase(s, w) {
      assert forall k :: 0 <= k < |s| ==> Lower(s)[k] == w[k];
    }
    if Lower(s) == w {
      forall k | 0 <= k < |s|
        ensures s[k] == w[k] || ('a' <= w[k] <= 'z' && s[k] == (w[k] as int - 32) as char)
      {
        assert LowerChar(s[k]) == w[k];
      }
    }
  }
}
