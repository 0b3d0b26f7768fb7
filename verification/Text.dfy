/** String searching and trimming as the streaming parsers use them: `str.find`, `str.strip`
    and the hold-back of a possibly unfinished tag at the end of a growing text. */
module Text {

  datatype Option<+T> = None | Some(value: T)

  predicate OccursAt(text: string, pat: string, i: nat) {
    i + |pat| <= |text| && text[i..i + |pat|] == pat
  }

  /** `text.find(pat, from)`: the first occurrence at or after `from`, or -1. */
  function Find(text: string, pat: string, from: nat): (r: int)
    ensures r == -1 ==> forall i: nat | from <= i :: !OccursAt(text, pat, i)
    ensures r != -1 ==> from <= r && OccursAt(text, pat, r)
    ensures forall i: nat | from <= i < r :: !OccursAt(text, pat, i)
    ensures -1 <= r
    decreases |text| - from
  {
    if from + |pat| > |text| then -1
    else if OccursAt(text, pat, from) then from
    else Find(text, pat, from + 1)
  }

  /** An occurrence in a text is an occurrence in every extension, and conversely when it fits. */
  lemma OccursInExtension(p: string, q: string, pat: string, i: nat)
    requires p <= q
    ensures OccursAt(p, pat, i) ==> OccursAt(q, pat, i)
    ensures OccursAt(q, pat, i) && i + |pat| <= |p| ==> OccursAt(p, pat, i)
  {
    if i + |pat| <= |p| {
      assert p[i..i + |pat|] == q[i..i + |pat|];
    }
  }

  /** What was found in a text is still the first hit in every extension of the text. */
  lemma FindInExtension(p: string, q: string, pat: string, from: nat)
    requires p <= q
    ensures Find(p, pat, from) != -1 ==> Find(q, pat, from) == Find(p, pat, from)
    ensures Find(q, pat, from) != -1 && Find(q, pat, from) + |pat| <= |p|
            ==> Find(p, pat, from) == Find(q, pat, from)
  {
    var a, b := Find(p, pat, from), Find(q, pat, from);
    if a != -1 { OccursInExtension(p, q, pat, a); }
    if b != -1 { OccursInExtension(p, q, pat, b); }
  }

  lemma OccursInSuffix(text: string, pat: string, cut: nat, i: nat)
    requires cut <= |text|
    ensures OccursAt(text[cut..], pat, i) <==> OccursAt(text, pat, cut + i)
  {
    if cut + i + |pat| <= |text| {
      assert text[cut..][i..i + |pat|] == text[cut + i..cut + i + |pat|];
    }
  }

  /** Searching a suffix is searching the whole text from the start of the suffix. */
  lemma {:induction false} FindInSuffix(text: string, pat: string, cut: nat, from: nat)
    requires cut <= |text|
    ensures Find(text, pat, cut + from) == (if Find(text[cut..], pat, from) == -1 then -1 else cut + Find(text[cut..], pat, from))
    decreases |text| - from
  {
    hide OccursAt;
    OccursInSuffix(text, pat, cut, from);
    if cut + from + |pat| <= |text| { FindInSuffix(text, pat, cut, from + 1); }
  }

  /** Starting later finds the same, as long as the first hit is not passed. */
  lemma FindFromLater(text: string, pat: string, lo: nat, from: nat)
    requires lo <= from && (Find(text, pat, lo) == -1 || from <= Find(text, pat, lo))
    ensures Find(text, pat, from) == Find(text, pat, lo)
  {}

  /** Searching a slice is searching the text, up to the end of the slice. */
  lemma FindInSlice(text: string, pat: string, lo: nat, hi: nat, from: nat)
    requires lo <= from <= |text| && lo <= hi <= |text|
    ensures var at := Find(text, pat, from);
            Find(text[lo..hi], pat, from - lo) == (if at != -1 && at + |pat| <= hi then at - lo else -1)
  {
    hide Find, OccursAt;
    assert text[..hi] <= text && text[..hi][lo..] == text[lo..hi];
    FindInSuffix(text[..hi], pat, lo, from - lo);
    FindInExtension(text[..hi], text, pat, from);
    FindFits(text[..hi], pat, from);
  }

  lemma SliceOfSlice<T>(s: seq<T>, lo: nat, hi: nat, a: nat, b: nat)
    requires lo <= a <= b <= hi <= |s|
    ensures s[lo..hi][a - lo..b - lo] == s[a..b]
  {
    var x, y := s[lo..hi][a - lo..b - lo], s[a..b];
    assert |x| == |y| && forall i | 0 <= i < |x| :: x[i] == s[a + i] == y[i];
  }

  lemma FindFits(text: string, pat: string, from: nat)
    ensures Find(text, pat, from) != -1 ==> Find(text, pat, from) + |pat| <= |text|
  {}

  /** The first hit in a text is also the first hit in any window that contains it. */
  lemma FindInWindow(before: string, window: string, after: string, pat: string, k: nat)
    requires Find(before + window + after, pat, 0) == |before| + k && k + |pat| <= |window|
    ensures Find(window, pat, 0) == k
  {
    hide Find, OccursAt;
    var text := before + window + after;
    assert text[|before|..] == window + after;
    FindFromLater(text, pat, 0, |before|);
    FindInSuffix(text, pat, |before|, 0);
    FindInExtension(window, window + after, pat, 0);
  }

  /** The last `k` characters of the text are the first `k` of the tag, and the tag is not complete. */
  predicate EndsWithPartial(text: string, tag: string, k: nat) {
    k <= |text| && k < |tag| && text[|text| - k..] == tag[..k]
  }

  function OverlapDown(text: string, tag: string, k: nat): (r: nat)
    requires 0 < |tag| && k < |tag| && k <= |text|
    requires forall j: nat | k < j :: !EndsWithPartial(text, tag, j)
    ensures EndsWithPartial(text, tag, r)
    ensures forall j: nat | r < j :: !EndsWithPartial(text, tag, j)
  {
    if k == 0 || text[|text| - k..] == tag[..k] then k else OverlapDown(text, tag, k - 1)
  }

  /** `partial_tag_overlap`: the longest suffix of the text that may be the start of the tag. */
  function PartialTagOverlap(text: string, tag: string): (r: nat)
    requires 0 < |tag|
    ensures EndsWithPartial(text, tag, r)
    ensures forall j: nat | r < j :: !EndsWithPartial(text, tag, j)
  {
    OverlapDown(text, tag, if |tag| - 1 < |text| then |tag| - 1 else |text|)
  }

  /** How much of the text may be passed on before the first tag: up to the tag when it is there,
      otherwise all but a suffix that may still become one. */
  function Sendable(text: string, tag: string): (n: nat)
    requires 0 < |tag|
    ensures n <= |text|
  {
    var at := Find(text, tag, 0);
    if at == -1 then |text| - PartialTagOverlap(text, tag) else at
  }

  /** The sendable part of a text never reaches past a tag that an extension of it completes. */
  lemma SendableBeforeTag(p: string, q: string, tag: string, at: nat)
    requires 0 < |tag| && p <= q && OccursAt(q, tag, at)
    ensures Sendable(p, tag) <= at
  {
    if at < |p| {
      if at + |tag| <= |p| {
        OccursInExtension(p, q, tag, at);
      } else if Find(p, tag, 0) == -1 {
        assert p[at..] == tag[..|p| - at] by { assert q[at..at + |tag|][..|p| - at] == p[at..]; }
        assert EndsWithPartial(p, tag, |p| - at);
      } else {
        OccursInExtension(p, q, tag, Find(p, tag, 0));
        assert Sendable(p, tag) + |tag| <= |p| < at + |tag|;
      }
    }
  }

  /** Growing the text never takes back what was sendable. */
  lemma SendableMonotone(p: string, q: string, tag: string)
    requires 0 < |tag| && p <= q
    ensures Sendable(p, tag) <= Sendable(q, tag)
    ensures Find(p, tag, 0) != -1 ==> Sendable(q, tag) == Sendable(p, tag)
  {
    FindInExtension(p, q, tag, 0);
    if Find(q, tag, 0) != -1 {
      SendableBeforeTag(p, q, tag, Find(q, tag, 0));
    } else {
      var k := PartialTagOverlap(q, tag);
      var cut := |q| - k;
      if cut < |p| {
        assert tag[..|p| - cut] == p[cut..] by { assert q[cut..][..|p| - cut] == p[cut..]; }
        assert EndsWithPartial(p, tag, |p| - cut);
      }
    }
  }

  /** Holding back less would be wrong: the held-back suffix can be completed to a tag. */
  lemma SendableIsTight(p: string, tag: string)
    requires 0 < |tag| && Find(p, tag, 0) == -1
    ensures exists d :: OccursAt(p + d, tag, Sendable(p, tag))
  {
    hide Find;
    var k := PartialTagOverlap(p, tag);
    var d := tag[k..];
    TagCompleted(p, tag, k);
    assert OccursAt(p + d, tag, Sendable(p, tag));
  }

  lemma TagCompleted(p: string, tag: string, k: nat)
    requires k <= |p| && k <= |tag| && p[|p| - k..] == tag[..k]
    ensures OccursAt(p + tag[k..], tag, |p| - k)
  {
    var text := p + tag[k..];
    assert text[|p| - k..|p| - k + |tag|] == p[|p| - k..] + tag[k..];
    assert tag[..k] + tag[k..] == tag;
  }

  /** Where a region that starts at `start` ends: at its end tag, or before what may become one. */
  function RegionEnd(text: string, start: nat, tag: string): (end: nat)
    requires 0 < |tag| && start <= |text|
    ensures start <= end <= |text|
  {
    var at := Find(text, tag, start);
    if at != -1 then at else |text| - PartialTagOverlap(text[start..], tag)
  }

  lemma RegionEndIsSendable(text: string, start: nat, tag: string)
    requires 0 < |tag| && start <= |text|
    ensures RegionEnd(text, start, tag) == start + Sendable(text[start..], tag)
  {
    FindInSuffix(text, tag, start, 0);
  }

  lemma RegionEndGrows(p: string, q: string, start: nat, tag: string)
    requires 0 < |tag| && p <= q && start <= |p|
    ensures RegionEnd(p, start, tag) <= RegionEnd(q, start, tag)
    ensures p[start..RegionEnd(p, start, tag)] <= q[start..RegionEnd(q, start, tag)]
  {
    hide RegionEnd, Sendable;
    RegionEndIsSendable(p, start, tag);
    RegionEndIsSendable(q, start, tag);
    assert p[start..] <= q[start..];
    SendableMonotone(p[start..], q[start..], tag);
    PrefixSlices(p, q, start, RegionEnd(p, start, tag), RegionEnd(q, start, tag));
  }

  lemma PrefixSlices(p: string, q: string, start: nat, a: nat, b: nat)
    requires p <= q && start <= a <= b && a <= |p| && b <= |q|
    ensures p[start..a] <= q[start..b]
  {
    var x, y := p[start..a], q[start..b];
    assert forall i | 0 <= i < |x| :: x[i] == p[start + i] == q[start + i] == y[i];
  }

  // ---- white space ----

  /** `str.isspace` of one character. */
  predicate IsSpace(c: char) {
    || c == ' ' || '\t' <= c <= '\r' || '\U{00001c}' <= c <= '\U{00001f}'
    || c == '\U{000085}' || c == '\U{0000a0}' || c == '\U{001680}' || '\U{002000}' <= c <= '\U{00200a}'
    || c == '\U{002028}' || c == '\U{002029}' || c == '\U{00202f}' || c == '\U{00205f}' || c == '\U{003000}'
  }

  predicate AllSpace(s: string) {
    forall i | 0 <= i < |s| :: IsSpace(s[i])
  }

  /** The first position at or after `i` that is not white space. */
  function SkipSpace(s: string, i: nat): (j: nat)
    requires i <= |s|
    ensures i <= j <= |s|
    ensures forall k | i <= k < j :: IsSpace(s[k])
    ensures j < |s| ==> !IsSpace(s[j])
    decreases |s| - i
  {
    if i < |s| && IsSpace(s[i]) then SkipSpace(s, i + 1) else i
  }

  /** No white space at the end. */
  predicate Trimmed(s: string) {
    s == "" || !IsSpace(s[|s| - 1])
  }

  function RStrip(s: string): (r: string)
    ensures r <= s && AllSpace(s[|r|..])
    ensures Trimmed(r)
  {
    if s != "" && IsSpace(s[|s| - 1]) then RStrip(s[..|s| - 1]) else s
  }

  function Strip(s: string): (r: string)
    ensures Trimmed(r)
  {
    RStrip(s[SkipSpace(s, 0)..])
  }

  /** Stripping the end of a prefix gives a prefix of the stripped whole. */
  lemma RStripPrefix(p: string, q: string)
    requires p <= q
    ensures RStrip(p) <= RStrip(q)
  {
    assert |RStrip(p)| <= |RStrip(q)|;
  }

  lemma SkipSpacePrefix(p: string, q: string, i: nat)
    requires p <= q && i <= |p|
    ensures SkipSpace(p, i) <= SkipSpace(q, i)
    ensures SkipSpace(p, i) < |p| ==> SkipSpace(q, i) == SkipSpace(p, i)
  {
    var a, b := SkipSpace(p, i), SkipSpace(q, i);
    if a < |p| { assert !IsSpace(q[a]); }
  }

  /** Stripping a growing text gives a growing text. */
  lemma StripPrefix(p: string, q: string)
    requires p <= q
    ensures Strip(p) <= Strip(q)
  {
    SkipSpacePrefix(p, q, 0);
    var a := SkipSpace(p, 0);
    if a < |p| {
      assert p[a..] <= q[a..];
      RStripPrefix(p[a..], q[a..]);
    } else {
      assert p[a..] == "";
    }
  }

  lemma PrefixTransitive(a: string, b: string, c: string)
    requires a <= b && b <= c
    ensures a <= c
  {}

  /** Two prefixes of one text are prefixes of one another. */
  lemma PrefixOfSame(a: string, b: string, c: string)
    requires a <= c && b <= c && |a| <= |b|
    ensures a <= b
  {}
}
