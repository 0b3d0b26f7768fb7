/** Outputs that begin with `<think>`, as models without the tag in their prompt write them: what streaming makes of the
    tag, for every chunking, and how that relates to the non-streaming extractor. */
module LeadingThink {
  import opened Text
  import opened ReasoningParser
  import opened ParserManager
  import Hermes = HermesParser

  // ---- the tag in the text ----

  lemma ThinkText(d: seq<Token>)
    ensures TextOfAll([Think] + d) == THINK + TextOfAll(d)
    ensures TextOfAll([Think] + d)[|THINK|..] == TextOfAll(d)
  {
    assert ([Think] + d)[1..] == d && ([Think] + d)[0] == Think;
    var x := TextOfAll(d);
    assert (THINK + x)[|THINK|..] == x;
  }

  /** The tag is found at the start, and an end tag only behind it. */
  lemma TagsBehindThink(x: string)
    ensures Find(THINK + x, THINK, 0) == 0
    ensures Find(THINK + x, END_THINK, 0) == if Find(x, END_THINK, 0) == -1 then -1 else |THINK| + Find(x, END_THINK, 0)
  {
    var t := THINK + x;
    assert t[0..|THINK|] == THINK;
    assert t[|THINK|..] == x;
    forall i: nat | i < |THINK| ensures !OccursAt(t, END_THINK, i) {
      if i + |END_THINK| <= |t| {
        var w := t[i..i + |END_THINK|];
        assert w[0] == t[i] == THINK[i] && w[1] == t[i + 1];
      }
    }
    FindInSuffix(t, END_THINK, |THINK|, 0);
    var at := Find(t, END_THINK, 0);
    if at != -1 { assert OccursAt(t, END_THINK, at); }
    FindFromLater(t, END_THINK, 0, |THINK|);
  }

  // ---- one delta ----

  /** For Qwen3 the delta that begins with the tag gives what it would give without. */
  lemma Qwen3SkipsThink(previous: seq<Token>, d: seq<Token>)
    requires Think !in d
    ensures Qwen3Streaming(previous, TextOfAll([Think] + d), [Think] + d) == Qwen3Streaming(previous, TextOfAll(d), d)
  {
    hide Find, TextOfAll, NonEmpty;
    ThinkText(d);
    TagsBehindThink(TextOfAll(d));
    var delta := [Think] + d;
    assert Think in delta by { assert delta[0] == Think; }
    assert forall t | t != Think :: t in delta <==> t in d;
  }

  /** What of the tag the client is sent as reasoning. */
  function Leaked(kind: Kind, d: seq<Token>): string {
    if kind == DeepSeekR1 && d != [] && EndThink !in d then THINK else ""
  }

  lemma ThinkInside(kind: Kind, d: seq<Token>)
    requires !HasMarker(kind, d) && Think !in d
    ensures var m := Streaming(kind, [], TextOfAll([Think] + d), [Think] + d);
            ReasoningOf(m) == Leaked(kind, d) + TextOfAll(d) && ContentOf(m) == ""
  {
    hide Find, TextOfAll, Qwen3Streaming;
    ThinkText(d);
    EmptyText();
    if kind == Qwen3 {
      Qwen3SkipsThink([], d);
      StreamingInside(kind, [], d);
      assert "" + TextOfAll(d) == TextOfAll(d);
    } else {
      assert ([Think] + d)[0] == Think;
      assert d == [] ==> [Think] + d == [Think];
      assert EndThink !in [Think] + d;
      assert "" + "" == "";
    }
  }

  lemma ThinkAtMarker(kind: Kind, d: seq<Token>, rest: seq<Token>)
    requires HasMarker(kind, d) && Aligned(kind, d + rest) && !ToolCallBeforeEnd(kind, d)
    ensures var m := Streaming(kind, [], TextOfAll([Think] + d), [Think] + d);
            ReasoningOf(m) == SplitReasoning(kind, d) && ContentOf(m) == SplitContent(kind, d)
  {
    hide Find, TextOfAll, Qwen3Streaming, DeepSeekStreaming, FirstMarker, FirstOf, Aligned, HasMarker, SplitReasoning, SplitContent, ToolCallBeforeEnd;
    assert [] + d + rest == d + rest;
    NoThink(kind, [], d, rest);
    NoMarkers(kind);
    MarkerDeltaIsAligned(kind, [], d, rest);
    if kind == Qwen3 {
      Qwen3SkipsThink([], d);
      StreamingAtMarker(kind, [], d);
    } else {
      DeepSeekThink(d);
    }
  }

  lemma NoMarkers(kind: Kind)
    ensures !HasMarker(kind, [])
  {}

  lemma DeepSeekThink(d: seq<Token>)
    requires HasMarker(DeepSeekR1, d) && Think !in d
    requires var n := FirstMarker(DeepSeekR1, d); Find(TextOfAll(d), TextOf(d[n]), 0) == |TextOfAll(d[..n])|
    ensures var m := DeepSeekStreaming([], TextOfAll([Think] + d), [Think] + d);
            ReasoningOf(m) == SplitReasoning(DeepSeekR1, d) && ContentOf(m) == SplitContent(DeepSeekR1, d)
  {
    hide Find, TextOfAll, NonEmpty, OrEmpty, FirstMarker, SplitReasoning, SplitContent, DeepSeekStreaming;
    var n := FirstMarker(DeepSeekR1, d);
    SplitFacts(DeepSeekR1, d);
    ThinkText(d);
    TextSplits(d, n);
    var before, after := TextOfAll(d[..n]), TextOfAll(d[n + 1..]);
    DeepSeekBetween(d, before, after);
    OrEmptySome(before);
    OrEmptySome(after);
  }

  /** A delta with both tags: the reasoning is what stands between them. */
  lemma DeepSeekBetween(d: seq<Token>, before: string, after: string)
    requires EndThink in d && Find(before + (END_THINK + after), END_THINK, 0) == |before|
    ensures DeepSeekStreaming([], THINK + (before + (END_THINK + after)), [Think] + d) == Some(Message(Some(before), NonEmpty(after)))
  {
    hide Find, NonEmpty;
    var x := before + (END_THINK + after);
    TagsBehindThink(x);
    Around(THINK, before, END_THINK, after);
    OneMore(d);
    BothTags(THINK + x, [Think] + d, |THINK| + |before|);
  }

  lemma Around(a: string, before: string, tag: string, after: string)
    ensures var text := a + (before + (tag + after));
            && |text| >= |a| + |before| + |tag|
            && text[..|a| + |before|] == a + before && (a + before)[|a|..] == before && text[|a| + |before| + |tag|..] == after
  {
    var head := a + before;
    assert a + (before + (tag + after)) == head + (tag + after);
    SplitsAtTag(head, tag, after);
  }

  lemma OneMore(d: seq<Token>)
    requires EndThink in d
    ensures Think in [Think] + d && EndThink in [Think] + d && |[Think] + d| > 1
  {
    assert ([Think] + d)[0] == Think;
  }

  /** The branch of the streaming parser for a delta with both tags. */
  lemma BothTags(text: string, delta: seq<Token>, end: nat)
    requires Think in delta && EndThink in delta && |delta| > 1 && end <= |text|
    requires Find(text, THINK, 0) == 0 && Find(text, END_THINK, 0) == end && |THINK| <= end && end + |END_THINK| <= |text|
    ensures DeepSeekStreaming([], text, delta) == Some(Message(Some(text[..end][|THINK|..]), NonEmpty(text[end + |END_THINK|..])))
  {
    hide Find, NonEmpty;
  }

  // ---- one call ----

  lemma ThinkWork(c: Config, kind: Kind, s: State, d: seq<Token>, rest: seq<Token>)
    requires c.reasoning == Some(kind) && !s.reasoningEnded && s.previousIds == []
    requires Aligned(kind, d + rest) && !ToolCallBeforeEnd(kind, d)
    ensures var delta := [Think] + d; var text := TextOfAll(delta);
            var w0 := Work(s, s.previousText + text, s.previousIds + delta, text, None);
            var w := ReasoningPhase(c, w0, delta);
            if HasMarker(kind, d) then
              && w.s == s.(reasoningEnded := true) && w.text == w.deltaText == SplitContent(kind, d)
              && Append(NOTHING, w.message) == Output(SplitReasoning(kind, d), SplitContent(kind, d), [])
              && (w.message == None ==> SplitReasoning(kind, d) == "" && SplitContent(kind, d) == "")
            else
              && w == w0.(message := w.message) && (w.message.Some? ==> w.message.value.toolCalls == [])
              && Append(NOTHING, w.message) == Output(Leaked(kind, d) + TextOfAll(d), "", [])
  {
    hide TextOfAll, Streaming, SplitReasoning, SplitContent, ToolCallBeforeEnd, ContentIds, Aligned, HasMarker, Leaked;
    SameMarkers(kind, d);
    if HasMarker(kind, d) {
      ThinkAtMarker(kind, d, rest);
    } else {
      assert [] + d + rest == d + rest;
      NoThink(kind, [], d, rest);
      ThinkInside(kind, d);
    }
  }

  lemma SameMarkers(kind: Kind, d: seq<Token>)
    ensures HasMarker(kind, [Think] + d) <==> HasMarker(kind, d)
  {}

  /** The first delta with tokens, which begins with the tag. */
  lemma ThinkStep(c: Config, kind: Kind, s: State, d: seq<Token>, rest: seq<Token>, prompt: Option<seq<Token>>, o: Output)
    requires c.reasoning == Some(kind) && Ready(c, s, prompt) && Inv(c, kind, s, [], "", [], o)
    requires Aligned(kind, d + rest) && !ToolCallBeforeEnd(kind, d)
    ensures var (s', m) := StepDelta(c, s, TextOfAll([Think] + d), [Think] + d, prompt);
            Inv(c, kind, s', [Think], Leaked(kind, d), d, Append(o, m)) && Ready(c, s', None)
  {
    hide TextOfAll, Hermes.Step, Hermes.Streamed, ToolPhase, ReasoningPhase, SplitReasoning, SplitContent,
         ToolCallBeforeEnd, Aligned, CheckPrompt, Append;
    EmptyText();
    OpenPromptChecked(c, s, prompt);
    var s0 := CheckPrompt(c, s, prompt);
    var delta := [Think] + d;
    assert [] + [] == s0.previousIds && s0.previousIds + delta == delta && o == Output("", "", []);
    ThinkWork(c, kind, s0, d, rest);
    var w := ReasoningPhase(c, Work(s0, s0.previousText + TextOfAll(delta), s0.previousIds + delta, TextOfAll(delta), None), delta);
    AppendIs(o, w.message);
    AppendReasoning(w.message);
    AppendText(o, "");
    assert forall x: string :: "" + x == x;
    assert o.calls + [] == [];
    if HasMarker(kind, d) {
      if c.hasTool {
        Hermes.StreamedStart(c.isJson);
        ToolPhaseKeeps(c, w, "", o);
      } else {
        ToolPhaseIdle(c, w);
      }
      MarkerLeaksNothing(kind, d);
    } else {
      ToolPhaseIdle(c, w);
    }
  }

  lemma MarkerLeaksNothing(kind: Kind, d: seq<Token>)
    requires HasMarker(kind, d)
    ensures Leaked(kind, d) == ""
  {}

  // ---- whole streams ----

  /** What of the tag is sent: all of it, for DeepSeek, if it comes in one delta with other tokens and no end tag. */
  function Leak(kind: Kind, chunks: seq<seq<Token>>): string {
    if chunks == [] then "" else if chunks[0] == [] then Leak(kind, chunks[1..]) else Leaked(kind, chunks[0][1..])
  }

  lemma SameBoundary(kind: Kind, d: seq<Token>)
    ensures ToolCallBeforeEnd(kind, [Think] + d) <==> ToolCallBeforeEnd(kind, d)
  {
    hide FirstOf;
    FirstOfAppends(EndThink, [Think], d);
    FirstOfAppends(ToolCall, [Think], d);
    assert forall t | t != Think :: t in [Think] + d <==> t in d;
  }

  lemma BoundaryTail(kind: Kind, chunks: seq<seq<Token>>)
    requires chunks != [] && BoundaryOk(kind, chunks)
    ensures HasMarker(kind, chunks[0]) || BoundaryOk(kind, chunks[1..])
    ensures !ToolCallBeforeEnd(kind, chunks[0])
  {}

  lemma {:induction false} ThinkRun(c: Config, kind: Kind, s: State, chunks: seq<seq<Token>>, prompt: Option<seq<Token>>,
                                   body: seq<Token>, o: Output)
    requires c.reasoning == Some(kind) && Ready(c, s, prompt) && Inv(c, kind, s, [], "", [], o)
    requires Flatten(chunks) == [Think] + body && Aligned(kind, body) && BoundaryOk(kind, chunks)
    ensures var (s', o') := Run(c, s, chunks, prompt, o); Inv(c, kind, s', [Think], Leak(kind, chunks), body, o')
    decreases |chunks|
  {
    hide StepDelta, Inv, Aligned, ToolCallBeforeEnd, HasMarker, IsReasoningEnd, TextOfAll, Leaked, BoundaryOk;
    BoundaryTail(kind, chunks);
    NoMarkers(kind);
    if chunks[0] == [] {
      StepInside(c, kind, s, [], "", [], [], prompt, o);
      assert [] + Flatten(chunks[1..]) == Flatten(chunks[1..]) && chunks[0] + [] == [];
      var (s1, m) := StepDelta(c, s, TextOfAll([]), [], prompt);
      ThinkRun(c, kind, s1, chunks[1..], None, body, Append(o, m));
    } else {
      var d, rest := chunks[0][1..], Flatten(chunks[1..]);
      assert chunks[0][0] == Flatten(chunks)[0] == Think;
      assert chunks[0] == [Think] + d;
      assert body == Flatten(chunks)[1..] == d + rest;
      SameBoundary(kind, d);
      SameMarkers(kind, d);
      ThinkStep(c, kind, s, d, rest, prompt, o);
      var (s1, m) := StepDelta(c, s, TextOfAll(chunks[0]), chunks[0], prompt);
      RunKeepsInv(c, kind, s1, chunks[1..], None, [Think], Leaked(kind, d), d, Append(o, m));
    }
  }

  /** However a stream is cut that begins with `<think>` and is aligned behind it, as long as no boundary chunk holds a tool
      call before its `</think>`: it is split at its first marker and the tag is sent nowhere, but for what leaks. */
  lemma ThinkStreamSplits(c: Config, kind: Kind, prompt: Option<seq<Token>>, chunks: seq<seq<Token>>, body: seq<Token>)
    requires c.reasoning == Some(kind) && OpenPrompt(kind, prompt)
    requires Flatten(chunks) == [Think] + body && Aligned(kind, body) && BoundaryOk(kind, chunks)
    ensures var (s, o) := Run(c, INITIAL, chunks, prompt, NOTHING);
            o.reasoning == Leak(kind, chunks) + SplitReasoning(kind, body) && Delivered(c, s, SplitContent(kind, body), o)
  {
    hide Run, Aligned, BoundaryOk, TextOfAll, IsReasoningEnd, Hermes.Streamed, Leak, FirstMarker;
    EmptyText();
    assert [] + [] == INITIAL.previousIds && "" + "" == "";
    ThinkRun(c, kind, INITIAL, chunks, prompt, body, NOTHING);
    if !HasMarker(kind, body) {
      SplitFacts(kind, body);
      NoFirstMarker(kind, body);
      Hermes.StreamedStart(c.isJson);
    }
  }

  lemma NoFirstMarker(kind: Kind, ts: seq<Token>)
    requires !HasMarker(kind, ts)
    ensures FirstMarker(kind, ts) == |ts|
  {}

  /** The non-streaming extractor takes no notice of the tag. */
  lemma ThinkIsSkipped(kind: Kind, body: seq<Token>)
    requires Aligned(kind, body)
    ensures ExtractReasoning(kind, TextOfAll([Think] + body), true) == ExtractReasoning(kind, TextOfAll(body), true)
  {
    hide Find, TextOfAll, FirstTagIsToken;
    ThinkText(body);
    TagsBehindThink(TextOfAll(body));
  }

  /** For Qwen3: every chunking of such a stream agrees with the non-streaming extractor exactly when no tool call opens
      before `</think>`. */
  lemma Qwen3ThinkAgreesIff(c: Config, prompt: Option<seq<Token>>, body: seq<Token>)
    requires c.reasoning == Some(Qwen3) && OpenPrompt(Qwen3, prompt) && Aligned(Qwen3, body)
    ensures (forall chunks | Flatten(chunks) == [Think] + body :: Agrees(c, Qwen3, prompt, chunks)) <==> !ToolCallBeforeEnd(Qwen3, body)
  {
    hide Run, Aligned, BoundaryOk, ToolCallBeforeEnd, SplitReasoning, SplitContent, ExtractReasoning, TextOfAll, IsReasoningEnd, Delivered, Singles, Leak;
    var ts := [Think] + body;
    ThinkIsSkipped(Qwen3, body);
    SameBoundary(Qwen3, body);
    if ToolCallBeforeEnd(Qwen3, body) {
      var chunks := Singles(ts);
      SinglesFlatten(Qwen3, ts);
      ThinkStreamSplits(c, Qwen3, prompt, chunks, body);
      Qwen3LeaksNothing(chunks);
      NonStreamingKeepsToolCall(Qwen3, body);
      assert !Agrees(c, Qwen3, prompt, chunks);
    } else {
      NonStreamingSplit(Qwen3, body);
      forall chunks | Flatten(chunks) == ts ensures Agrees(c, Qwen3, prompt, chunks) {
        BoundaryOfStream(Qwen3, chunks);
        ThinkStreamSplits(c, Qwen3, prompt, chunks, body);
        Qwen3LeaksNothing(chunks);
        assert "" + SplitReasoning(Qwen3, body) == SplitReasoning(Qwen3, body);
      }
    }
  }

  lemma {:induction false} Qwen3LeaksNothing(chunks: seq<seq<Token>>)
    ensures Leak(Qwen3, chunks) == ""
  {
    if chunks != [] { Qwen3LeaksNothing(chunks[1..]); }
  }

  /** For DeepSeek: a chunking of such a stream agrees with the non-streaming extractor exactly if the tag does not come in
      one delta with other tokens and no end tag; otherwise the client is sent the tag. */
  lemma DeepSeekThinkAgreesIff(c: Config, prompt: Option<seq<Token>>, chunks: seq<seq<Token>>, body: seq<Token>)
    requires c.reasoning == Some(DeepSeekR1) && OpenPrompt(DeepSeekR1, prompt)
    requires Flatten(chunks) == [Think] + body && Aligned(DeepSeekR1, body)
    ensures Agrees(c, DeepSeekR1, prompt, chunks) <==> Leak(DeepSeekR1, chunks) == ""
    ensures Run(c, INITIAL, chunks, prompt, NOTHING).1.reasoning == Leak(DeepSeekR1, chunks) + SplitReasoning(DeepSeekR1, body)
  {
    hide Run, Aligned, BoundaryOk, SplitReasoning, SplitContent, ExtractReasoning, TextOfAll, IsReasoningEnd, Delivered, Leak;
    ThinkIsSkipped(DeepSeekR1, body);
    NonStreamingSplit(DeepSeekR1, body);
    BoundaryOfStream(DeepSeekR1, chunks);
    ThinkStreamSplits(c, DeepSeekR1, prompt, chunks, body);
    assert |Leak(DeepSeekR1, chunks) + SplitReasoning(DeepSeekR1, body)| == |Leak(DeepSeekR1, chunks)| + |SplitReasoning(DeepSeekR1, body)|;
    assert "" + SplitReasoning(DeepSeekR1, body) == SplitReasoning(DeepSeekR1, body);
  }
}
