/** The check of the prompt before the first delta: what it decides, and what the client receives when the reasoning is
    over before the stream begins, or when there is no reasoning parser. */
module PromptCheck {
  import opened Text
  import opened ReasoningParser
  import opened ParserManager
  import Hermes = HermesParser

  // ---- what the check decides ----

  /** The token at `i` closes the reasoning: it is an end tag, or for Qwen3 a tool call without an end tag behind it, and
      no start tag follows. */
  ghost predicate ClosesAt(kind: Kind, ids: seq<Token>, i: int) {
    && 0 <= i < |ids| && Think !in ids[i + 1..]
    && (ids[i] == EndThink || (kind == Qwen3 && ids[i] == ToolCall && ToolCallEnd !in ids[i + 1..]))
  }

  /** The check says that the reasoning of a prompt is over exactly if some token of it closes it. Tool calls with their
      end tag, as templates show them, do not count. */
  lemma ReasoningEndsIff(kind: Kind, ids: seq<Token>)
    ensures IsReasoningEnd(kind, ids, false) <==> exists i :: ClosesAt(kind, ids, i)
  {
    hide IsReasoningEnd, ClosesAt;
    EndsBefore(kind, ids, []);
    assert ids + [] == ids;
    if i :| ClosesAt(kind, ids, i) { InRange(kind, ids, i); }
  }

  lemma InRange(kind: Kind, ids: seq<Token>, i: int)
    requires ClosesAt(kind, ids, i)
    ensures 0 <= i < |ids|
  {}

  /** The scan of a prefix, with what it has passed. */
  lemma {:induction false} EndsBefore(kind: Kind, ids: seq<Token>, passed: seq<Token>)
    requires Think !in passed
    ensures IsReasoningEnd(kind, ids, ToolCallEnd in passed) <==> exists i :: i < |ids| && ClosesAt(kind, ids + passed, i)
    decreases |ids|
  {
    hide ClosesAt;
    if ids == [] {
      NoneBelow(kind, ids + passed);
    } else {
      var n := |ids| - 1;
      var all := ids + passed;
      var rest, t := ids[..n], ids[n];
      assert rest + ([t] + passed) == all;
      LastCloses(kind, ids, passed);
      if t == Think {
        ThinkBlocks(kind, all, n);
      } else {
        EndsBefore(kind, rest, [t] + passed);
      }
    }
  }

  lemma NoneBelow(kind: Kind, ids: seq<Token>)
    ensures forall i :: i < 0 ==> !ClosesAt(kind, ids, i)
  {}

  lemma LastCloses(kind: Kind, ids: seq<Token>, passed: seq<Token>)
    requires ids != [] && Think !in passed
    ensures ClosesAt(kind, ids + passed, |ids| - 1) <==>
              var t := ids[|ids| - 1]; t == EndThink || (kind == Qwen3 && t == ToolCall && ToolCallEnd !in passed)
  {
    assert (ids + passed)[|ids|..] == passed;
  }

  lemma ThinkBlocks(kind: Kind, ids: seq<Token>, n: nat)
    requires n < |ids| && ids[n] == Think
    ensures forall i :: i <= n ==> !ClosesAt(kind, ids, i)
  {
    forall i: int | i <= n ensures !ClosesAt(kind, ids, i) {
      if 0 <= i < n { assert ids[i + 1..][n - i - 1] == Think; }
    }
  }

  // ---- the reasoning is over before the stream begins ----

  /** The reasoning phase is skipped: there is no reasoning parser, or the prompt closes the reasoning. */
  ghost predicate SkipsReasoning(c: Config, prompt: seq<Token>) {
    c.reasoning == None || exists i :: ClosesAt(c.reasoning.value, prompt, i)
  }

  /** The stream so far has gone through the tool parser, or straight to the client. */
  ghost predicate Through(c: Config, s: State, text: string, o: Output) {
    s.reasoningEnded && |s.tool.names| == |s.tool.streamed| && o.reasoning == "" && ContentInv(c, s, text, o)
  }

  lemma ThroughStep(c: Config, s: State, text: string, deltaText: string, delta: seq<Token>, prompt: Option<seq<Token>>, o: Output)
    requires Through(c, s, text, o)
    ensures var (s', m) := StepDelta(c, s, deltaText, delta, prompt); Through(c, s', text + deltaText, Append(o, m))
  {
    hide Hermes.Step, IsReasoningEnd, Hermes.Streamed, ToolPhase;
    var s0 := CheckPrompt(c, s, prompt);
    var w := Work(s0, s0.previousText + deltaText, s0.previousIds + delta, deltaText, None);
    if c.hasTool { ToolPhaseKeeps(c, w, text, o); } else { ToolPhaseIdle(c, w); }
    assert o.reasoning + "" == o.reasoning && o.calls + [] == o.calls;
  }

  /** The first delta of such a stream. */
  lemma FirstStep(c: Config, deltaText: string, delta: seq<Token>, prompt: seq<Token>)
    requires SkipsReasoning(c, prompt)
    ensures var (s', m) := StepDelta(c, INITIAL, deltaText, delta, Some(prompt)); Through(c, s', deltaText, Append(NOTHING, m))
  {
    hide Hermes.Step, IsReasoningEnd, Hermes.Streamed, ToolPhase, ClosesAt;
    if c.reasoning != None { ReasoningEndsIff(c.reasoning.value, prompt); }
    var s0 := CheckPrompt(c, INITIAL, Some(prompt));
    assert s0.reasoningEnded;
    var w := Work(s0, s0.previousText + deltaText, s0.previousIds + delta, deltaText, None);
    assert "" + deltaText == deltaText;
    Hermes.StreamedStart(c.isJson);
    if c.hasTool { ToolPhaseKeeps(c, w, "", NOTHING); } else { ToolPhaseIdle(c, w); }
    assert [] + NOTHING.calls == [];
  }

  lemma {:induction false} ThroughRun(c: Config, s: State, text: string, chunks: seq<seq<Token>>, o: Output)
    requires Through(c, s, text, o)
    ensures var (s', o') := Run(c, s, chunks, None, o); Through(c, s', text + TextOfAll(Flatten(chunks)), o')
    decreases |chunks|
  {
    hide StepDelta, ContentInv, TextOfAll;
    if chunks == [] {
      EmptyText();
      assert text + "" == text;
    } else {
      var delta := TextOfAll(chunks[0]);
      ThroughStep(c, s, text, delta, chunks[0], None, o);
      var (s1, m) := StepDelta(c, s, delta, chunks[0], None);
      ThroughRun(c, s1, text + delta, chunks[1..], Append(o, m));
      TextAppends(chunks[0], Flatten(chunks[1..]));
      assert text + (delta + TextOfAll(Flatten(chunks[1..]))) == text + delta + TextOfAll(Flatten(chunks[1..]));
    }
  }

  /** For every prompt that closes the reasoning, every configuration without a reasoning parser, every output and every
      chunking: no reasoning is sent, and the whole output goes through the tool parser, or to the client as it is. */
  lemma ClosedPromptDelivers(c: Config, prompt: seq<Token>, chunks: seq<seq<Token>>)
    requires SkipsReasoning(c, prompt)
    ensures var (s, o) := Run(c, INITIAL, chunks, Some(prompt), NOTHING);
            o.reasoning == "" && Delivered(c, s, TextOfAll(Flatten(chunks)), o)
  {
    hide StepDelta, TextOfAll, SkipsReasoning, Hermes.Streamed;
    if chunks == [] {
      EmptyText();
      Hermes.StreamedStart(c.isJson);
    } else {
      var delta := TextOfAll(chunks[0]);
      FirstStep(c, delta, chunks[0], prompt);
      var (s1, m) := StepDelta(c, INITIAL, delta, chunks[0], Some(prompt));
      ThroughRun(c, s1, delta, chunks[1..], Append(NOTHING, m));
      TextAppends(chunks[0], Flatten(chunks[1..]));
    }
  }

  /** Then a finished tool call of the output is exact. */
  lemma ClosedPromptCallIsExact(c: Config, prompt: seq<Token>, chunks: seq<seq<Token>>, i: nat)
    requires SkipsReasoning(c, prompt) && c.hasTool && Hermes.FinishedCall(TextOfAll(Flatten(chunks)), i, c.isJson)
    ensures var text := TextOfAll(Flatten(chunks)); var json := Hermes.Regions(text, 0)[i].json;
            var o := Run(c, INITIAL, chunks, Some(prompt), NOTHING).1;
            && o.reasoning == "" && o.content == text[..Sendable(text, Hermes.START)]
            && Hermes.NamesFor(o.calls, i) == [Hermes.NameOf(json).value] && Hermes.ArgsFor(o.calls, i) == Hermes.FinalArgs(json)
  {
    hide Run, Hermes.Run, Hermes.Regions, Hermes.NameOf, Hermes.FinalArgs, Hermes.NamesFor, Hermes.ArgsFor, Sendable, TextOfAll,
         Hermes.RawArgs, Hermes.ArgText, SkipsReasoning;
    ClosedPromptDelivers(c, prompt, chunks);
    var text := TextOfAll(Flatten(chunks));
    var (s, o) := Run(c, INITIAL, chunks, Some(prompt), NOTHING);
    var cs :| Hermes.Concat(cs) == text && Hermes.Run(Hermes.INITIAL, "", cs, c.isJson) == (s.tool, o.content, o.calls);
    Hermes.ArgumentsAreExact(cs, i, c.isJson);
    Hermes.StreamingIsChunkIndependent(cs, c.isJson, i);
  }

  /** Without a reasoning parser and without a prompt the tool parser is never asked: every output reaches the client as
      it is, and no call is found in it. */
  lemma {:induction false} NoPromptPassesThrough(c: Config, s: State, chunks: seq<seq<Token>>, o: Output)
    requires c.reasoning == None && !s.reasoningEnded && |s.tool.names| == |s.tool.streamed|
    ensures var (s', o') := Run(c, s, chunks, None, o);
            !s'.reasoningEnded && o' == Output(o.reasoning, o.content + TextOfAll(Flatten(chunks)), o.calls)
    decreases |chunks|
  {
    hide TextOfAll, Hermes.Step;
    if chunks == [] {
      EmptyText();
      assert o.content + "" == o.content;
    } else {
      var delta := TextOfAll(chunks[0]);
      var (s1, m) := StepDelta(c, s, delta, chunks[0], None);
      assert o.reasoning + "" == o.reasoning && o.calls + [] == o.calls;
      NoPromptPassesThrough(c, s1, chunks[1..], Append(o, m));
      TextAppends(chunks[0], Flatten(chunks[1..]));
      assert o.content + delta + TextOfAll(Flatten(chunks[1..])) == o.content + (delta + TextOfAll(Flatten(chunks[1..])));
    }
  }

  // ---- only the first prompt counts ----

  /** Feeds the chunks with what each call brings as its prompt. */
  function RunWithPrompts(c: Config, s: State, chunks: seq<seq<Token>>, prompts: seq<Option<seq<Token>>>, o: Output): (State, Output)
    requires |prompts| == |chunks| && |s.tool.names| == |s.tool.streamed|
    decreases |chunks|
  {
    if chunks == [] then (s, o)
    else
      var (s1, m) := StepDelta(c, s, TextOfAll(chunks[0]), chunks[0], prompts[0]);
      RunWithPrompts(c, s1, chunks[1..], prompts[1..], Append(o, m))
  }

  lemma CheckedStays(c: Config, s: State, deltaText: string, delta: seq<Token>, prompt: Option<seq<Token>>)
    requires |s.tool.names| == |s.tool.streamed|
    ensures s.promptChecked ==> StepDelta(c, s, deltaText, delta, prompt) == StepDelta(c, s, deltaText, delta, None)
    ensures s.promptChecked || prompt.Some? ==> StepDelta(c, s, deltaText, delta, prompt).0.promptChecked
  {
    hide IsReasoningEnd, Streaming, Hermes.Step, ContentIds, HasMarker;
  }

  lemma {:induction false} CheckedRun(c: Config, s: State, chunks: seq<seq<Token>>, prompts: seq<Option<seq<Token>>>, o: Output)
    requires |prompts| == |chunks| && |s.tool.names| == |s.tool.streamed| && s.promptChecked
    ensures RunWithPrompts(c, s, chunks, prompts, o) == Run(c, s, chunks, None, o)
    decreases |chunks|
  {
    hide StepDelta, TextOfAll;
    if chunks != [] {
      var delta := TextOfAll(chunks[0]);
      CheckedStays(c, s, delta, chunks[0], prompts[0]);
      var (s1, m) := StepDelta(c, s, delta, chunks[0], None);
      CheckedRun(c, s1, chunks[1..], prompts[1..], Append(o, m));
    }
  }

  /** After a call with a prompt, the prompts of later calls make no difference: a run that brings a prompt with every call
      is the run that brings only the first. */
  lemma OnlyFirstPromptCounts(c: Config, chunks: seq<seq<Token>>, prompts: seq<Option<seq<Token>>>)
    requires |prompts| == |chunks| > 0 && prompts[0].Some?
    ensures RunWithPrompts(c, INITIAL, chunks, prompts, NOTHING) == Run(c, INITIAL, chunks, prompts[0], NOTHING)
  {
    hide StepDelta, TextOfAll;
    var delta := TextOfAll(chunks[0]);
    CheckedStays(c, INITIAL, delta, chunks[0], prompts[0]);
    var (s1, m) := StepDelta(c, INITIAL, delta, chunks[0], prompts[0]);
    CheckedRun(c, s1, chunks[1..], prompts[1..], Append(NOTHING, m));
  }

  // ---- agreement with the non-streaming extractor ----

  /** The non-streaming extractor finds no reasoning in the output and keeps all of it as content. */
  ghost predicate KeepsAll(kind: Kind, output: string, thinkingEnabled: bool) {
    var (reasoning, content) := ExtractReasoning(kind, output, thinkingEnabled);
    OrEmpty(reasoning) == "" && OrEmpty(content) == output
  }

  /** With a closed prompt, streaming sends the whole output as content; the non-streaming extractor, which does not see
      the prompt, does so exactly if the output is empty, or for Qwen3 if it has no think tag and thinking is switched
      off or the output begins with a tool call. */
  lemma ClosedPromptAgreesIff(kind: Kind, output: string, thinkingEnabled: bool)
    ensures KeepsAll(kind, output, thinkingEnabled) <==>
              output == "" ||
              (&& kind == Qwen3 && Find(output, THINK, 0) == -1 && Find(output, END_THINK, 0) == -1
               && (!thinkingEnabled || Find(output, TOOL_CALL, 0) == 0))
  {
    hide Find;
    var text := WithoutThink(output);
    FindFits(output, THINK, 0);
    FindFits(text, END_THINK, 0);
    FindFits(text, TOOL_CALL, 0);
    FindFits(output, TOOL_CALL, 0);
    assert text[..0] == "" && text[0..] == text;
  }

  // ---- the ids of the boundary delta ----

  lemma {:induction false} LastToolCallIs(ids: seq<Token>, after: seq<Token>) returns (n: nat)
    requires ToolCall !in after && ToolCall in ids
    ensures n < |ids| && ids[n] == ToolCall && ToolCall !in ids[n + 1..] && LastToolCall(ids, after) == ids[n..] + after
    decreases |ids|
  {
    var last := |ids| - 1;
    if ids[last] == ToolCall {
      n := last;
    } else {
      assert ToolCall in ids[..last];
      n := LastToolCallIs(ids[..last], [ids[last]] + after);
      assert ids[n..] == ids[..last][n..] + [ids[last]];
      assert ids[n + 1..] == ids[..last][n + 1..] + [ids[last]];
    }
  }

  lemma {:induction false} NoToolCall(ids: seq<Token>, after: seq<Token>)
    requires ToolCall !in ids
    ensures LastToolCall(ids, after) == []
    decreases |ids|
  {
    if ids != [] { NoToolCall(ids[..|ids| - 1], [ids[|ids| - 1]] + after); }
  }

  /** The ids that the boundary delta leaves are those of its content, exactly if it has an end tag or no second tool
      call: without an end tag they start at the last tool call and the content at the first. */
  lemma ContentIdsAgreeIff(kind: Kind, delta: seq<Token>)
    requires HasMarker(kind, delta) && !ToolCallBeforeEnd(kind, delta)
    ensures TextOfAll(ContentIds(kind, delta)) == SplitContent(kind, delta) <==>
              EndThink in delta || ToolCall !in delta[FirstOf(ToolCall, delta) + 1..]
  {
    hide FirstOf, FirstMarker, TextOfAll;
    FirstMarkerIs(kind, delta);
    EmptyText();
    var n := FirstMarker(kind, delta);
    if EndThink in delta {
      EndTagIds(kind, delta);
    } else {
      var last := LastToolCallIs(delta, []);
      TextSplits(delta[n..], last - n);
      assert delta[n..][last - n..] == delta[last..] && delta[last..] + [] == delta[last..];
      if last != n {
        assert delta[n + 1..][last - n - 1] == ToolCall;
        StartsWithCall(delta[n..][..last - n]);
      }
    }
  }

  lemma EndTagIds(kind: Kind, delta: seq<Token>)
    requires EndThink in delta && !ToolCallBeforeEnd(kind, delta)
    ensures TextOfAll(ContentIds(kind, delta)) == SplitContent(kind, delta)
  {
    hide FirstOf, FirstMarker, TextOfAll;
    FirstMarkerIs(kind, delta);
    EmptyText();
    var n := FirstOf(EndThink, delta);
    assert delta[|delta|..] == [];
    if n + 1 == |delta| {
      if kind == Qwen3 && ToolCall in delta { CallIsLater(delta, n); }
      if kind == Qwen3 { NoToolCall(delta, []); }
    }
  }

  lemma CallIsLater(delta: seq<Token>, n: nat)
    requires ToolCall in delta && n + 1 == |delta| && delta[n] == EndThink
    ensures FirstOf(ToolCall, delta) < n
  {}

  lemma StartsWithCall(ts: seq<Token>)
    requires ts != [] && ts[0] == ToolCall
    ensures |TextOfAll(ts)| > 0
  {}
}
