/** The text beside the tool calls of the Qwen3-Coder model: what is sent to the client as content, for any chunking
    that does not cut a start tag, and how it relates to the content of the non-streaming extractor. */
module Qwen3CoderContent {
  import opened Text
  import opened Qwen3CoderParser
  import opened Qwen3CoderOutput

  /** All content that was sent, in order. */
  function ContentOf(log: seq<Event>): string {
    if log == [] then ""
    else
      ContentOf(log[..|log| - 1]) +
      match log[|log| - 1]
      case Content(text) => text
      case _ => ""
  }

  lemma ContentAppends(log: seq<Event>, e: Event)
    ensures ContentOf(log + [e]) == ContentOf(log) + (if e.Content? then e.text else "")
  {
    assert (log + [e])[..|log|] == log;
  }

  // ---- chunkings ----

  /** The delta ends no start tag that began before it, and has the text of a start tag if it has its id. */
  ghost predicate WholeTags(text: string, d: Delta) {
    && (d.startId ==> Find(d.text, CALL, 0) != -1)
    && forall j: nat | OccursAt(text + d.text, CALL, j) && |text| < j + |CALL| :: |text| <= j
  }

  /** Position `n` lies inside a start tag. */
  ghost predicate Inside(text: string, n: nat) {
    exists j: nat :: OccursAt(text, CALL, j) && j < n < j + |CALL|
  }

  /** No delta ends inside a start tag of the text, and the id of a start tag comes with its text. */
  ghost predicate Uncut(text: string, p: string, ds: seq<Delta>)
    decreases |ds|
  {
    ds == [] ||
    (&& (ds[0].startId ==> Find(ds[0].text, CALL, 0) != -1) && !Inside(text, |p + ds[0].text|)
     && Uncut(text, p + ds[0].text, ds[1..]))
  }

  lemma UncutIsWhole(text: string, p: string, d: Delta)
    requires p + d.text <= text && !Inside(text, |p|) && (d.startId ==> Find(d.text, CALL, 0) != -1)
    ensures WholeTags(p, d)
  {
    forall j: nat | OccursAt(p + d.text, CALL, j) && |p| < j + |CALL| ensures |p| <= j {
      OccursInExtension(p + d.text, text, CALL, j);
    }
  }

  lemma NoTagIsWhole(p: string, d: Delta)
    requires Find(p + d.text, CALL, 0) == -1 && !d.startId
    ensures WholeTags(p, d)
  {}

  /** After the first one, every start tag begins its delta. */
  ghost predicate TagsLead(text: string, ds: seq<Delta>)
    decreases |ds|
  {
    ds == [] ||
    (&& (Find(text, CALL, 0) != -1 ==> Find(ds[0].text, CALL, 0) <= 0)
     && TagsLead(text + ds[0].text, ds[1..]))
  }

  /** White space that comes right behind an end tag. */
  ghost predicate Swallowed(text: string, d: Delta) {
    d.text != "" && AllSpace(d.text) && EndsWith(RStrip(text + d.text), CALL_END)
  }

  ghost predicate NoneSwallowed(text: string, ds: seq<Delta>)
    decreases |ds|
  {
    ds == [] || (!Swallowed(text, ds[0]) && NoneSwallowed(text + ds[0].text, ds[1..]))
  }

  lemma RStripIsEmpty(s: string)
    ensures RStrip(s) == "" ==> AllSpace(s)
  {
    if RStrip(s) == "" { assert s[|RStrip(s)|..] == s; }
  }

  lemma StripIsEmpty(s: string)
    ensures Strip(s) == "" <==> AllSpace(s)
  {
    var a := SkipSpace(s, 0);
    RStripIsEmpty(s[a..]);
    if a == |s| {
      assert s[a..] == "";
    } else {
      assert s[a..][0] == s[a];
    }
  }

  /** The first tag of a growing text, found in the delta that brings it. */
  lemma FirstTag(text: string, d: Delta)
    requires WholeTags(text, d) && Find(text, CALL, 0) == -1
    ensures Find(d.text, CALL, 0) == -1 ==> Find(text + d.text, CALL, 0) == -1
    ensures Find(d.text, CALL, 0) != -1 ==>
              && Find(d.text, CALL, 0) <= |d.text| && Find(text + d.text, CALL, 0) == |text| + Find(d.text, CALL, 0)
              && (text + d.text)[..|text| + Find(d.text, CALL, 0)] == text + d.text[..Find(d.text, CALL, 0)]
  {
    hide Find, OccursAt;
    var current := text + d.text;
    assert current[|text|..] == d.text;
    FindInSuffix(current, CALL, |text|, 0);
    FindInExtension(text, current, CALL, 0);
    FindFits(d.text, CALL, 0);
    var at := Find(current, CALL, 0);
    if at != -1 {
      assert |text| <= at;
      FindFromLater(current, CALL, 0, |text|);
    }
  }

  /** A delta without a start tag brings none. */
  lemma {:induction false} NoNewStart(text: string, d: Delta, from: nat)
    requires WholeTags(text, d) && Find(d.text, CALL, 0) == -1
    ensures Starts(text + d.text, CALL, from) == Starts(text, CALL, from)
    decreases |text| - from
  {
    hide Find, OccursAt, WholeTags;
    var current := text + d.text;
    StartsUnfold(text, CALL, from);
    StartsUnfold(current, CALL, from);
    FindInExtension(text, current, CALL, from);
    NoStartBehind(text, d, from);
    var at := Find(text, CALL, from);
    if at != -1 {
      FindFits(text, CALL, from);
      NoNewStart(text, d, at + |CALL|);
    }
  }

  lemma NoStartBehind(text: string, d: Delta, from: nat)
    requires WholeTags(text, d) && Find(d.text, CALL, 0) == -1
    ensures Find(text + d.text, CALL, from) != -1 ==> Find(text + d.text, CALL, from) + |CALL| <= |text|
  {
    hide Find, OccursAt;
    var current := text + d.text;
    assert current[|text|..] == d.text;
    FindInSuffix(current, CALL, |text|, 0);
  }

  // ---- before the first call ----

  /** No tag has come: no call is under way, and what was sent is the text, but for white space behind an end tag. */
  ghost predicate Plain(text: string, s: State, log: seq<Event>, exact: bool) {
    && !s.started && !s.jsonClosed && Find(text, CALL, 0) == -1
    && |ContentOf(log)| <= |text| && (ContentOf(log) == text <==> exact)
    && (!exact ==> |ContentOf(log)| < |text|)
  }

  lemma PlainStep(json: Json, text: string, s: State, d: Delta, log: seq<Event>, exact: bool)
    requires Plain(text, s, log, exact) && WholeTags(text, d) && Find(d.text, CALL, 0) == -1
    ensures var (s', e) := Step(json, s, text, d);
            Plain(text + d.text, s', log + [e], exact && !Swallowed(text, d))
  {
    hide Find, OccursAt, Strip, RStrip, EndsWith, Starts, AllSpace, WholeTags;
    var (s', e) := Step(json, s, text, d);
    FirstTag(text, d);
    StripIsEmpty(d.text);
    ContentAppends(log, e);
    IdLess(text, d);
    if d.text == "" { assert text + d.text == text; }
    if ContentOf(log) + d.text == text + d.text { SamePrefix(ContentOf(log), text, d.text); }
  }

  lemma IdLess(text: string, d: Delta)
    requires WholeTags(text, d) && Find(d.text, CALL, 0) == -1
    ensures !d.startId
  {
    hide Find, OccursAt;
  }

  lemma SamePrefix(a: string, b: string, t: string)
    requires a + t == b + t
    ensures a == b
  {
    assert |a| == |b|;
    assert (a + t)[..|a|] == a && (b + t)[..|b|] == b;
  }

  lemma {:induction false} PlainRun(json: Json, text: string, s: State, ds: seq<Delta>, log: seq<Event>, exact: bool)
    requires Plain(text, s, log, exact) && Find(text + TextOf(ds), CALL, 0) == -1 && forall d | d in ds :: !d.startId
    ensures var (s', log') := Run(json, s, text, ds, log);
            Plain(text + TextOf(ds), s', log', exact && NoneSwallowed(text, ds))
    decreases |ds|
  {
    hide Find, OccursAt, Plain, WholeTags, Swallowed, Step;
    if ds == [] {
      assert text + "" == text;
    } else {
      var d := ds[0];
      assert text + TextOf(ds) == text + d.text + TextOf(ds[1..]);
      FindInExtension(text + d.text, text + TextOf(ds), CALL, 0);
      NotInDelta(text, d);
      NoTagIsWhole(text, d);
      PlainStep(json, text, s, d, log, exact);
      var (s', e) := Step(json, s, text, d);
      PlainRun(json, text + d.text, s', ds[1..], log + [e], exact && !Swallowed(text, d));
    }
  }

  lemma NotInDelta(text: string, d: Delta)
    requires Find(text + d.text, CALL, 0) == -1
    ensures Find(d.text, CALL, 0) == -1
  {
    hide Find, OccursAt;
    assert (text + d.text)[|text|..] == d.text;
    FindInSuffix(text + d.text, CALL, |text|, 0);
  }

  lemma PlainStart()
    ensures Plain("", INITIAL, [], true)
  {}

  /** For every output without a tool call and every chunking: the content sent is the whole output, exactly if no delta
      is white space right behind an end tag; and token ids without text then get the empty message. */
  lemma PlainTextIsSent(json: Json, ds: seq<Delta>)
    requires Find(TextOf(ds), CALL, 0) == -1 && forall d | d in ds :: !d.startId
    ensures var (s, log) := Run(json, INITIAL, "", ds, []);
            && (ContentOf(log) == TextOf(ds) <==> NoneSwallowed("", ds))
            && (TextOf(ds) != "" ==> Step(json, s, TextOf(ds), Delta("", false, true)) == (s, Content("")))
            && (TextOf(ds) == "" ==> Step(json, s, TextOf(ds), Delta("", false, true)).1 == Nothing)
  {
    hide Find, Run, NoneSwallowed, OccursAt, Starts, TextOf;
    PlainStart();
    assert "" + TextOf(ds) == TextOf(ds);
    PlainRun(json, "", INITIAL, ds, [], true);
    assert TextOf(ds) + "" == TextOf(ds);
  }

  /** For every output and every chunking, with the delta that brings the first start tag: the content sent up to and with
      it is the text before the tag, exactly if no delta was white space right behind an end tag. */
  lemma ContentBeforeFirstCall(json: Json, ds: seq<Delta>, d: Delta)
    requires Find(TextOf(ds), CALL, 0) == -1 && forall x | x in ds :: !x.startId
    requires Find(d.text, CALL, 0) != -1 && WholeTags(TextOf(ds), d)
    ensures var text := TextOf(ds) + d.text; var at := Find(text, CALL, 0);
            var (s, log) := Run(json, INITIAL, "", ds, []);
            var (s', e) := Step(json, s, TextOf(ds), d);
            && 0 <= at <= |text| && s'.started
            && (ContentOf(log + [e]) == text[..at] <==> NoneSwallowed("", ds))
  {
    hide Find, Run, NoneSwallowed, OccursAt, TextOf, WholeTags, Starts;
    PlainStart();
    assert "" + TextOf(ds) == TextOf(ds);
    PlainRun(json, "", INITIAL, ds, [], true);
    FirstTag(TextOf(ds), d);
    var (s, log) := Run(json, INITIAL, "", ds, []);
    var (s', e) := Step(json, s, TextOf(ds), d);
    ContentAppends(log, e);
    var before := d.text[..Find(d.text, CALL, 0)];
    FindFits(d.text, CALL, 0);
    assert ContentOf(log + [e]) == ContentOf(log) + before;
    if ContentOf(log) + before == TextOf(ds) + before { SamePrefix(ContentOf(log), TextOf(ds), before); }
  }

  lemma EndTagOccurs(text: string)
    requires EndsWith(RStrip(text), CALL_END)
    ensures OccursAt(text, CALL_END, |RStrip(text)| - |CALL_END|)
  {
    var r := RStrip(text);
    assert text[|r| - |CALL_END|..|r|] == r[|r| - |CALL_END|..];
  }

  /** Without an end tag in the text nothing is taken for white space behind one. */
  lemma {:induction false} NoEndTagNoneSwallowed(text: string, ds: seq<Delta>)
    requires Find(text + TextOf(ds), CALL_END, 0) == -1
    ensures NoneSwallowed(text, ds)
    decreases |ds|
  {
    hide Find, RStrip, AllSpace;
    if ds != [] {
      var current := text + ds[0].text;
      assert text + TextOf(ds) == current + TextOf(ds[1..]);
      FindInExtension(current, text + TextOf(ds), CALL_END, 0);
      if EndsWith(RStrip(current), CALL_END) { EndTagOccurs(current); }
      NoEndTagNoneSwallowed(current, ds[1..]);
    }
  }

  // ---- after the first call ----

  /** Between one call and the next, and after the last one, there is nothing but white space. */
  ghost predicate WhiteGaps(text: string, pos: nat)
    decreases |text| - pos
  {
    var start := Find(text, CALL, pos);
    start == -1 ||
    var end := Find(text, CALL_END, pos);
    && end != -1 && AllSpace(GapFrom(text, end + |CALL_END|)) && WhiteGaps(text, end + |CALL_END|)
  }

  /** The text from `from` to the next start tag, or to the end. */
  function GapFrom(text: string, from: nat): string {
    var next := Find(text, CALL, from);
    if next != -1 then text[from..next] else if from <= |text| then text[from..] else ""
  }

  /** As many calls have ended as have started. */
  ghost predicate Balanced(p: string, pos: nat) {
    |Starts(p, CALL, pos)| == |Starts(p, CALL_END, pos)|
  }

  /** The first call in an unfinished output. */
  lemma FirstInPrefix(p: string, text: string, pos: nat)
    requires p <= text && SideBySide(text, pos) && Find(p, CALL, pos) != -1
    ensures var start, end := Find(text, CALL, pos), Find(text, CALL_END, pos);
            && start == Find(p, CALL, pos) && SideBySide(text, end + |CALL_END|)
            && if Find(p, CALL_END, pos) == -1
               then Starts(p, CALL, pos) == [start as nat] && Starts(p, CALL_END, pos) == []
               else Find(p, CALL_END, pos) == end && end + |CALL_END| <= |p| && pos < end + |CALL_END|
                    && Starts(p, CALL, pos) == [start as nat] + Starts(p, CALL, end + |CALL_END|)
                    && Starts(p, CALL_END, pos) == [end as nat] + Starts(p, CALL_END, end + |CALL_END|)
  {
    hide Find, OccursAt, SideBySide, Starts;
    FindInExtension(p, text, CALL, pos);
    SideFacts(text, pos);
    FindInExtension(p, text, CALL_END, pos);
    var start, end := Find(text, CALL, pos), Find(text, CALL_END, pos);
    StartsUnfold(p, CALL, pos);
    StartsUnfold(p, CALL_END, pos);
    FindInExtension(p, text, CALL, start + |CALL|);
    FindFits(p, CALL, start + |CALL|);
    StartsUnfold(p, CALL, start + |CALL|);
    FindFits(p, CALL_END, pos);
    if Find(p, CALL_END, pos) != -1 {
      StartsSkip(p, start + |CALL|, end + |CALL_END|);
    }
  }

  lemma NoneInPrefix(p: string, text: string, pos: nat)
    requires p <= text && SideBySide(text, pos) && Find(p, CALL, pos) == -1
    ensures Starts(p, CALL, pos) == [] && Starts(p, CALL_END, pos) == []
  {
    hide Find, OccursAt, SideBySide, Starts;
    StartsUnfold(p, CALL, pos);
    StartsUnfold(p, CALL_END, pos);
    FindInExtension(p, text, CALL_END, pos);
    FindInExtension(p, text, CALL, pos);
    FindFits(p, CALL_END, pos);
    if Find(text, CALL, pos) != -1 { SideFacts(text, pos); } else { NoEndEither(text, pos); }
  }

  lemma NoEndEither(text: string, pos: nat)
    requires SideBySide(text, pos) && Find(text, CALL, pos) == -1
    ensures Find(text, CALL_END, pos) == -1
  {
    hide Find;
  }

  /** No call ends before it starts. */
  lemma {:induction false} EndsAreFewer(p: string, text: string, pos: nat)
    requires p <= text && SideBySide(text, pos)
    ensures |Starts(p, CALL_END, pos)| <= |Starts(p, CALL, pos)|
    decreases |p| - pos
  {
    hide Find, OccursAt, SideBySide, Starts;
    if Find(p, CALL, pos) == -1 {
      NoneInPrefix(p, text, pos);
    } else {
      FirstInPrefix(p, text, pos);
      if Find(p, CALL_END, pos) != -1 { EndsAreFewer(p, text, Find(p, CALL_END, pos) + |CALL_END|); }
    }
  }

  /** In an unfinished output whose calls have all ended, what follows the last end tag is white up to the next call. */
  lemma {:induction false} LastGap(p: string, text: string, pos: nat) returns (e: nat)
    requires p <= text && SideBySide(text, pos) && WhiteGaps(text, pos) && Balanced(p, pos) && Find(p, CALL, pos) != -1
    ensures |CALL_END| <= e <= |p| && OccursAt(p, CALL_END, e - |CALL_END|)
    ensures AllSpace(GapFrom(text, e)) && Find(p, CALL, e) == -1
    decreases |p| - pos
  {
    hide Find, OccursAt, SideBySide, Starts, AllSpace, GapFrom;
    FirstInPrefix(p, text, pos);
    e := Find(text, CALL_END, pos) + |CALL_END|;
    if Find(p, CALL, e) != -1 { e := LastGap(p, text, e); }
  }

  /** What is known of a prefix `p` of an output: before the first tag all of it was sent; after it, what was sent is the
      text before the tag and white space, none if all further tags lead, and between calls all of them have ended. */
  ghost predicate Sent(p: string, s: State, log: seq<Event>, lead: bool) {
    && (s.jsonClosed ==> s.started)
    && if Find(p, CALL, 0) == -1 then !s.started && ContentOf(log) == p
       else
         && (!s.started ==> Balanced(p, 0))
         && p[..Find(p, CALL, 0)] <= ContentOf(log)
         && AllSpace(ContentOf(log)[Find(p, CALL, 0)..])
         && (lead ==> ContentOf(log) == p[..Find(p, CALL, 0)])
  }

  lemma SpaceAppends(a: string, b: string, n: nat)
    requires n <= |a| && AllSpace(a[n..]) && AllSpace(b)
    ensures AllSpace((a + b)[n..])
  {
    assert (a + b)[n..] == a[n..] + b;
  }

  /** Sending more white space, or nothing. */
  lemma SentMore(p: string, q: string, s: State, s': State, log: seq<Event>, e: Event, lead: bool)
    requires p <= q && Find(p, CALL, 0) != -1 && Sent(p, s, log, lead)
    requires e.Content? ==> AllSpace(e.text) && (lead ==> e.text == "")
    requires (s'.jsonClosed ==> s'.started) && (!s'.started ==> Balanced(q, 0))
    ensures Sent(q, s', log + [e], lead)
  {
    hide Find, Balanced, ContentOf, AllSpace;
    FindInExtension(p, q, CALL, 0);
    FindFits(p, CALL, 0);
    var at := Find(p, CALL, 0);
    assert p[..at] == q[..at];
    ContentAppends(log, e);
    assert ContentOf(log) + "" == ContentOf(log);
    if e.Content? { SpaceAppends(ContentOf(log), e.text, at); }
  }

  lemma StateAfter(json: Json, s: State, p: string, d: Delta)
    ensures var s' := Step(json, s, p, d).0; (s.jsonClosed ==> s.started) ==> (s'.jsonClosed ==> s'.started)
  {
    hide Find, Starts, ToolText, Collect, Render, KeptArguments, RStrip, Strip, EndsWith;
  }

  /** Which events are content: none while a call is under way. */
  lemma CallsSendNoContent(json: Json, s: State, p: string, d: Delta)
    requires s.started && p != ""
    ensures var (s', e) := Step(json, s, p, d);
            && (e.Content? ==> e.text == "")
            && (!s'.started ==> d.text != "" && s.index + 1 >= |Starts(p + d.text, CALL, 0)| && |Starts(p + d.text, CALL_END, 0)| > s.index)
  {
    hide Find, Starts, ToolText, Collect, Render, KeptArguments;
  }

  lemma DuringCalls(json: Json, p: string, text: string, s: State, d: Delta, log: seq<Event>, lead: bool)
    requires p + d.text <= text && SideBySide(text, 0)
    requires Sent(p, s, log, lead) && Find(p, CALL, 0) != -1 && s.started
    ensures var (s', e) := Step(json, s, p, d); Sent(p + d.text, s', log + [e], lead)
  {
    hide Find, Step, Starts, SideBySide, ContentOf;
    FindFits(p, CALL, 0);
    CallsSendNoContent(json, s, p, d);
    StateAfter(json, s, p, d);
    EndsAreFewer(p + d.text, text, 0);
    SentMore(p, p + d.text, s, Step(json, s, p, d).0, log, Step(json, s, p, d).1, lead);
  }

  /** What follows the end of the calls in `p`, up to the next start tag, is white space: so is the next delta, or what
      it holds before a start tag. */
  lemma DeltaInGap(p: string, text: string, d: Delta)
    requires p + d.text <= text && SideBySide(text, 0) && WhiteGaps(text, 0) && Balanced(p, 0) && Find(p, CALL, 0) != -1
    requires WholeTags(p, d) && !Inside(text, |p + d.text|)
    ensures var at := Find(d.text, CALL, 0);
            if at != -1 then at <= |d.text| && AllSpace(d.text[..at])
            else AllSpace(d.text) && EndsWith(RStrip(p + d.text), CALL_END)
  {
    hide Find, OccursAt, SideBySide, WhiteGaps, Balanced, RStrip, EndsWith, GapFrom, Inside, WholeTags, IsSpace;
    PrefixTransitive(p, p + d.text, text);
    var e := LastGap(p, text, 0);
    var at := Find(d.text, CALL, 0);
    FindFits(d.text, CALL, 0);
    var end := if at != -1 then |p| + at else |p| + |d.text|;
    NextTag(p, text, d, e);
    WhiteUpTo(text, e, end);
    assert forall k | 0 <= k < |d.text| :: d.text[k] == (p + d.text)[|p| + k] == text[|p| + k];
    if at == -1 {
      var current := p + d.text;
      TagKept(p, d, e);
      assert forall k | e <= k < |current| :: current[k] == text[k];
      LastOfTag(current, e);
      NoSpace();
      StripsTo(current, CALL_END, e);
    }
  }

  lemma TagKept(p: string, d: Delta, e: nat)
    requires |CALL_END| <= e && OccursAt(p, CALL_END, e - |CALL_END|)
    ensures OccursAt(p + d.text, CALL_END, e - |CALL_END|)
  {
    OccursInExtension(p, p + d.text, CALL_END, e - |CALL_END|);
  }

  /** The next start tag is not before the one in the delta, or not before its end. */
  lemma NextTag(p: string, text: string, d: Delta, e: nat)
    requires p + d.text <= text && e <= |p| && Find(p, CALL, e) == -1 && WholeTags(p, d) && !Inside(text, |p + d.text|)
    ensures var at := Find(d.text, CALL, 0); var next := Find(text, CALL, e);
            next == -1 || (if at != -1 then |p| + at <= next else |p| + |d.text| <= next)
  {
    hide Find, OccursAt;
    var current := p + d.text;
    var next := Find(text, CALL, e);
    if next != -1 {
      OccursInExtension(p, current, CALL, next);
      OccursInExtension(current, text, CALL, next);
      OccursInExtension(p, text, CALL, next);
      assert current[|p|..] == d.text;
      FindFits(d.text, CALL, 0);
      if next + |CALL| <= |current| {
        assert |p| <= next;
        OccursInSuffix(current, CALL, |p|, next - |p|);
      }
    }
  }

  lemma WhiteUpTo(text: string, e: nat, end: nat)
    requires e <= end <= |text| && AllSpace(GapFrom(text, e))
    requires Find(text, CALL, e) == -1 || end <= Find(text, CALL, e)
    ensures forall k | e <= k < end :: IsSpace(text[k])
  {
    hide Find, IsSpace;
    var gap := GapFrom(text, e);
    forall k | e <= k < end ensures IsSpace(text[k]) { assert gap[k - e] == text[k]; }
  }

  /** Stripping removes the white space behind a tag and not the tag. */
  lemma StripsTo(s: string, pat: string, e: nat)
    requires 0 < |pat| <= e <= |s| && OccursAt(s, pat, e - |pat|) && !IsSpace(s[e - 1]) && forall k | e <= k < |s| :: IsSpace(s[k])
    ensures EndsWith(RStrip(s), pat)
  {
    hide RStrip, IsSpace, OccursAt, EndsWith;
    RStripStops(s, e);
    EndsWithAt(s, pat, e);
  }

  lemma LastOfTag(s: string, e: nat)
    requires |CALL_END| <= e && OccursAt(s, CALL_END, e - |CALL_END|)
    ensures e <= |s| && s[e - 1] == '>'
  {
    assert s[e - |CALL_END|..e][|CALL_END| - 1] == s[e - 1];
  }

  lemma EndsWithAt(s: string, pat: string, e: nat)
    requires |pat| <= e && OccursAt(s, pat, e - |pat|)
    ensures e <= |s| && EndsWith(s[..e], pat)
  {
    assert s[..e][e - |pat|..] == s[e - |pat|..e];
  }

  lemma NoSpace()
    ensures !IsSpace('>')
  {}

  lemma {:induction false} RStripStops(s: string, e: nat)
    requires 0 < e <= |s| && !IsSpace(s[e - 1]) && forall k | e <= k < |s| :: IsSpace(s[k])
    ensures RStrip(s) == s[..e]
  {
    hide IsSpace;
    if e < |s| {
      var t := s[..|s| - 1];
      RStripStops(t, e);
      assert t[..e] == s[..e];
    } else {
      assert s[..e] == s;
    }
  }

  /** Between calls: a delta without a start tag is white space and nothing is sent; one with it may send white space. */
  lemma BetweenCalls(json: Json, p: string, text: string, s: State, d: Delta, log: seq<Event>, lead: bool)
    requires p + d.text <= text && SideBySide(text, 0) && WhiteGaps(text, 0)
    requires Sent(p, s, log, lead) && Find(p, CALL, 0) != -1 && !s.started && d.text != ""
    requires WholeTags(p, d) && !Inside(text, |p + d.text|) && (lead ==> Find(d.text, CALL, 0) <= 0)
    ensures var (s', e) := Step(json, s, p, d); Sent(p + d.text, s', log + [e], lead)
  {
    hide Find, OccursAt, SideBySide, WhiteGaps, Balanced, RStrip, Strip, AllSpace, EndsWith, WholeTags, Inside, Starts, ContentOf;
    DeltaInGap(p, text, d);
    StripIsEmpty(d.text);
    FindFits(p, CALL, 0);
    SpaceOfNothing();
    var (s', e) := Step(json, s, p, d);
    if Find(d.text, CALL, 0) == -1 {
      IdLess(p, d);
      StaysBalanced(p, text, d);
    }
    SentMore(p, p + d.text, s, s', log, e, lead);
  }

  lemma SpaceOfNothing()
    ensures AllSpace("")
  {}

  lemma StaysBalanced(p: string, text: string, d: Delta)
    requires p + d.text <= text && SideBySide(text, 0) && Balanced(p, 0) && WholeTags(p, d) && Find(d.text, CALL, 0) == -1
    ensures Balanced(p + d.text, 0)
  {
    hide Find, OccursAt, SideBySide, WholeTags, Starts;
    NoNewStart(p, d, 0);
    StartsGrow(p, p + d.text, CALL_END, 0);
    EndsAreFewer(p + d.text, text, 0);
  }

  /** Before the first tag of such an output no end tag has come, so every delta is sent. */
  lemma FirstPart(json: Json, p: string, text: string, s: State, d: Delta, log: seq<Event>, lead: bool)
    requires p + d.text <= text && SideBySide(text, 0) && Sent(p, s, log, lead) && Find(p, CALL, 0) == -1 && WholeTags(p, d)
    ensures var (s', e) := Step(json, s, p, d); Sent(p + d.text, s', log + [e], lead)
  {
    hide Find, OccursAt, SideBySide, RStrip, AllSpace, EndsWith, WholeTags, Balanced, ContentOf, Step;
    var (s', e) := Step(json, s, p, d);
    FirstTag(p, d);
    ContentAppends(log, e);
    if Find(d.text, CALL, 0) == -1 {
      NoEndYet(p, text, d);
      IdLess(p, d);
      TextIsSent(json, s, p, d);
      assert p + "" == p;
    } else {
      TextBeforeTagIsSent(json, s, p, d);
      SentToTag(p, s', log + [e], d, lead);
    }
  }

  lemma TextIsSent(json: Json, s: State, p: string, d: Delta)
    requires !s.started && !s.jsonClosed && Find(p + d.text, CALL, 0) == -1 && Find(d.text, CALL, 0) == -1 && !d.startId
    requires !EndsWith(RStrip(p + d.text), CALL_END)
    ensures var (s', e) := Step(json, s, p, d);
            !s'.started && !s'.jsonClosed && (if e.Content? then e.text == d.text else d.text == "")
  {
    hide Find, Starts, RStrip, Strip, EndsWith;
  }

  lemma TextBeforeTagIsSent(json: Json, s: State, p: string, d: Delta)
    requires !s.started && !s.jsonClosed && Find(d.text, CALL, 0) != -1 && Find(d.text, CALL, 0) <= |d.text|
    ensures var (s', e) := Step(json, s, p, d); var before := d.text[..Find(d.text, CALL, 0)];
            s'.started && !s'.jsonClosed && (if e.Content? then e.text == before else before == "")
  {
    hide Find, Starts, RStrip, Strip, EndsWith;
    if d.text == "" { NoTagInNothing(); }
  }

  lemma NoTagInNothing()
    ensures Find("", CALL, 0) == -1
  {}

  lemma SentToTag(p: string, s: State, log: seq<Event>, d: Delta, lead: bool)
    requires s.started && Find(p, CALL, 0) == -1 && 0 <= Find(d.text, CALL, 0) <= |d.text|
    requires Find(p + d.text, CALL, 0) == |p| + Find(d.text, CALL, 0)
    requires ContentOf(log) == p + d.text[..Find(d.text, CALL, 0)]
    ensures Sent(p + d.text, s, log, lead)
  {
    hide Find, ContentOf, Balanced;
    var at := Find(d.text, CALL, 0);
    assert (p + d.text)[..|p| + at] == p + d.text[..at];
    assert ContentOf(log)[|p| + at..] == "";
  }

  lemma NoEndYet(p: string, text: string, d: Delta)
    requires p + d.text <= text && SideBySide(text, 0) && Find(p + d.text, CALL, 0) == -1
    ensures !EndsWith(RStrip(p + d.text), CALL_END)
  {
    hide Find, OccursAt, SideBySide, RStrip;
    var current := p + d.text;
    NoneInPrefix(current, text, 0);
    StartsUnfold(current, CALL_END, 0);
    if EndsWith(RStrip(current), CALL_END) { EndTagOccurs(current); }
  }

  lemma StepSends(json: Json, p: string, text: string, s: State, d: Delta, log: seq<Event>, lead: bool)
    requires p + d.text <= text && SideBySide(text, 0) && WhiteGaps(text, 0) && Sent(p, s, log, lead)
    requires WholeTags(p, d) && !Inside(text, |p + d.text|)
    requires lead && Find(p, CALL, 0) != -1 ==> Find(d.text, CALL, 0) <= 0
    ensures var (s', e) := Step(json, s, p, d); Sent(p + d.text, s', log + [e], lead)
  {
    hide Find, Sent, SideBySide, WhiteGaps, WholeTags, Inside, Step;
    if Find(p, CALL, 0) == -1 {
      FirstPart(json, p, text, s, d, log, lead);
    } else if s.started {
      DuringCalls(json, p, text, s, d, log, lead);
    } else if d.text != "" {
      BetweenCalls(json, p, text, s, d, log, lead);
    } else {
      EmptyDelta(json, p, s, d, log, lead);
    }
  }

  lemma EmptyDelta(json: Json, p: string, s: State, d: Delta, log: seq<Event>, lead: bool)
    requires Sent(p, s, log, lead) && Find(p, CALL, 0) != -1 && d.text == ""
    ensures var (s', e) := Step(json, s, p, d); Sent(p + d.text, s', log + [e], lead)
  {
    hide Find, AllSpace, Starts, HasCompleteCall, ContentOf;
    FindFits(p, CALL, 0);
    SpaceOfNothing();
    assert p + d.text == p;
    var (s', e) := Step(json, s, p, d);
    SentMore(p, p, s, s', log, e, lead);
  }

  lemma {:induction false} RunSends(json: Json, p: string, text: string, s: State, ds: seq<Delta>, log: seq<Event>, lead: bool)
    requires p + TextOf(ds) == text && SideBySide(text, 0) && WhiteGaps(text, 0) && Sent(p, s, log, lead)
    requires !Inside(text, |p|) && Uncut(text, p, ds) && (lead ==> TagsLead(p, ds))
    ensures var (s', log') := Run(json, s, p, ds, log); Sent(text, s', log', lead)
    decreases |ds|
  {
    hide Find, Sent, SideBySide, WhiteGaps, WholeTags, Inside, Step;
    if ds == [] {
      assert p + "" == p;
    } else {
      var d := ds[0];
      assert p + TextOf(ds) == p + d.text + TextOf(ds[1..]);
      UncutIsWhole(text, p, d);
      StepSends(json, p, text, s, d, log, lead);
      var (s', e) := Step(json, s, p, d);
      RunSends(json, p + d.text, text, s', ds[1..], log + [e], lead);
    }
  }

  /** For an output of calls side by side with white space between and behind them, and every chunking that does not cut a
      start tag: what is sent as content is the text before the first call and after it nothing but white space, and none
      if every start tag but the first begins its delta. */
  lemma NothingAfterCalls(json: Json, ds: seq<Delta>)
    requires SideBySide(TextOf(ds), 0) && WhiteGaps(TextOf(ds), 0) && Uncut(TextOf(ds), "", ds) && Find(TextOf(ds), CALL, 0) != -1
    ensures var content := ContentOf(Run(json, INITIAL, "", ds, []).1); var at := Find(TextOf(ds), CALL, 0);
            && 0 <= at <= |TextOf(ds)| && TextOf(ds)[..at] <= content && AllSpace(content[at..])
            && (TagsLead("", ds) ==> content == TextOf(ds)[..at])
  {
    hide Find, Run, Uncut, OccursAt, TextOf, WhiteGaps, SideBySide, TagsLead, Balanced, ContentOf;
    SentStart(TagsLead("", ds));
    assert "" + TextOf(ds) == TextOf(ds);
    FindFits(TextOf(ds), CALL, 0);
    RunSends(json, "", TextOf(ds), INITIAL, ds, [], TagsLead("", ds));
  }

  lemma SentStart(lead: bool)
    ensures Sent("", INITIAL, [], lead)
  {}

  /** What is sent of text behind a closed call, whatever the output is: nothing of the first delta after the end tag, not
      even if it is no white space; after that every delta, but for white space right behind an end tag. */
  lemma BehindClosedCall(json: Json, s: State, p: string, d: Delta)
    requires p != "" && d.text != "" && Find(d.text, CALL, 0) == -1 && !d.startId
    ensures var (s', e) := Step(json, s, p, d);
            && (s.jsonClosed && !s.inFunction && |Starts(p + d.text, CALL_END, 0)| > s.index ==> e == Nothing && !s'.jsonClosed)
            && (!s.started && !s.jsonClosed ==> e == if Swallowed(p, d) then Nothing else Content(d.text))
  {
    hide Find, Starts, RStrip, Strip, EndsWith, ToolText, AllSpace;
    StripIsEmpty(d.text);
  }

  /** Behind the last call: of two deltas without a start tag, the first is dropped, and the second is sent unless it is
      white space right behind the end tag. */
  lemma TextBehindLastCall(json: Json, s: State, p: string, d: Delta, d': Delta)
    requires p != "" && d.text != "" && d'.text != "" && Find(d.text, CALL, 0) == -1 && Find(d'.text, CALL, 0) == -1 && !d'.startId
    requires s.jsonClosed && !s.inFunction && |Starts(p + d.text, CALL_END, 0)| > s.index && s.index + 1 >= |Starts(p + d.text, CALL, 0)|
    ensures var (s1, e1) := Step(json, s, p, d); var (s2, e2) := Step(json, s1, p + d.text, d');
            && e1 == Nothing && !s1.started
            && e2 == if Swallowed(p + d.text, d') then Nothing else Content(d'.text)
  {
    hide Find, Starts, RStrip, Strip, EndsWith, ToolText, AllSpace;
    StripIsEmpty(d'.text);
  }

  /** While a call is under way and none is complete, ids without text get no message. */
  lemma NoMessageDuringCall(json: Json, s: State, p: string, startId: bool, otherIds: bool)
    requires p != "" && s.started && !HasCompleteCall(p)
    ensures Step(json, s, p, Delta("", startId, otherIds)) == (s, Nothing)
  {
    hide Find, Starts, HasCompleteCall;
    assert p + "" == p;
  }

  // ---- the content of the non-streaming extractor ----

  /** An unfinished call is captured up to the end of the output, without one final newline. */
  lemma OpenCallIsCaptured(before: string, inner: string)
    requires Find(before + CALL + inner, CALL, 0) == |before| && Find(inner, CALL_END, 0) == -1
    ensures ToolCaptures(before + CALL + inner, 0) == [DropNewline(inner)]
  {
    hide Find, TailEnd, DropNewline;
    var text := before + CALL + inner;
    var from := |before| + |CALL|;
    assert text[from..] == inner;
    FindInSuffix(text, CALL_END, from, 0);
    TailIs(before + CALL, inner);
  }

  lemma TailIs(head: string, inner: string)
    ensures (head + inner)[|head|..TailEnd(head + inner, |head|)] == DropNewline(inner)
  {
    var text := head + inner;
    if inner != "" { assert text[|text| - 1] == inner[|inner| - 1]; }
  }

  /** Parsing the function raises: a parameter has no `>`. */
  predicate ParseRaises(json: Json, content: string) {
    var gt := Find(content, ">", 0);
    gt != -1 && ParsePairs(Matches(content[gt + 1..], 0)) == None
  }

  predicate AnyRaises(json: Json, calls: seq<string>) {
    exists i | 0 <= i < |calls| :: ParseRaises(json, calls[i])
  }

  /** `extract_tool_calls` takes calls from the output. */
  predicate TakesCalls(json: Json, text: string) {
    Find(text, FUNCTION, 0) != -1 && FunctionCalls(text) != [] && !AnyRaises(json, FunctionCalls(text))
  }

  /** The content it returns; an absent content is empty. */
  function ExtractedContent(json: Json, text: string): string {
    if !TakesCalls(json, text) then text
    else if Find(text, CALL, 0) != -1 then text[..Min(Find(text, CALL, 0), |text|)]
    else text[..Min(Find(text, FUNCTION, 0), |text|)]
  }

  function Min(at: int, n: nat): nat {
    if 0 <= at <= n then at else n
  }

  /** For such outputs, and outputs without a tag and without an end tag: the content sent is the content extracted,
      exactly if the extractor takes calls just when there is a tool-call tag. They differ for a tag without a function
      and for a function without a tag. */
  lemma ContentAgreesIff(json: Json, ds: seq<Delta>)
    requires SideBySide(TextOf(ds), 0) && WhiteGaps(TextOf(ds), 0) && Uncut(TextOf(ds), "", ds) && TagsLead("", ds)
    ensures ContentOf(Run(json, INITIAL, "", ds, []).1) == ExtractedContent(json, TextOf(ds))
            <==> (TakesCalls(json, TextOf(ds)) <==> Find(TextOf(ds), CALL, 0) != -1)
  {
    hide Find, Run, Uncut, OccursAt, TextOf, WhiteGaps, SideBySide, TagsLead, Balanced, ContentOf, FunctionCalls, AnyRaises;
    var text := TextOf(ds);
    SentStart(true);
    assert "" + text == text;
    FindFits(text, CALL, 0);
    FindFits(text, FUNCTION, 0);
    RunSends(json, "", text, INITIAL, ds, [], true);
  }

  /** For an output of well-formed calls the extractor takes them, so the contents agree. */
  lemma GoodContentAgrees(json: Json, ds: seq<Delta>)
    requires GoodOutput(json, TextOf(ds)) && Find(TextOf(ds), CALL, 0) != -1
    requires WhiteGaps(TextOf(ds), 0) && Uncut(TextOf(ds), "", ds) && TagsLead("", ds)
    ensures ContentOf(Run(json, INITIAL, "", ds, []).1) == ExtractedContent(json, TextOf(ds))
  {
    hide Find, Run, Uncut, TextOf, WhiteGaps, SideBySide, TagsLead, ContentOf, ExtractedContent, TakesCalls, GoodCall, Starts, ToolText;
    TakesGoodCalls(json, TextOf(ds));
    ContentAgreesIff(json, ds);
  }

  lemma TakesGoodCalls(json: Json, text: string)
    requires GoodOutput(json, text) && Find(text, CALL, 0) != -1
    ensures TakesCalls(json, text)
  {
    hide Find, SideBySide, Starts, ToolText, FunctionCalls, FunctionContent, ParseRaises, OneFunction, WellFormed, Params, Distinct, PlainNames;
    OutputFunctions(json, text);
    StartsUnfold(text, CALL, 0);
    forall i | 0 <= i < |FunctionCalls(text)| ensures !ParseRaises(json, FunctionCalls(text)[i]) {
      assert GoodCall(json, ToolText(text, i));
      GoodCallParses(json, ToolText(text, i));
    }
    assert GoodCall(json, ToolText(text, 0));
    FunctionInText(text);
  }

  lemma GoodCallParses(json: Json, tool: string)
    requires GoodCall(json, tool) && FunctionContent(tool) != None
    ensures !ParseRaises(json, FunctionContent(tool).value)
  {
    hide Find, FunctionContent, Matches, OneFunction, WellFormed, Params, Distinct, PlainNames, DumpItems;
    ParsedIsRendered(json, tool);
  }

  lemma FunctionInText(text: string)
    requires |Starts(text, CALL, 0)| > 0 && OneFunction(ToolText(text, 0))
    ensures Find(text, FUNCTION, 0) != -1
  {
    hide Find, Starts, OccursAt;
    var start := Starts(text, CALL, 0)[0];
    ToolTextIsToolAt(text, 0);
    var end := Find(text, CALL_END, start);
    FindFits(text, CALL_END, start);
    FindInSlice(text, FUNCTION, start, if end == -1 then |text| else end + |CALL_END|, start);
    assert text[start..|text|] == text[start..];
  }
}
