/** `Parser.parse_delta`: one delta after another through the reasoning, tool-call and
    pass-through phases, and what the client receives in all. */
module ParserManager {
  import opened Text
  import opened ReasoningParser
  import Hermes = HermesParser

  /** The parsers a model was registered with. */
  datatype Config = Config(reasoning: Option<Kind>, hasTool: bool, isJson: string -> bool)

  /** `StreamState`, with the state of the tool parser. */
  datatype State = State(
    reasoningEnded: bool, toolStarted: bool, promptChecked: bool,
    previousText: string, previousIds: seq<Token>, tool: Hermes.State)

  const INITIAL := State(false, false, false, "", [], Hermes.INITIAL)

  datatype Delta = Delta(reasoning: Option<string>, content: Option<string>, toolCalls: seq<Hermes.Delta>)

  predicate InReasoning(c: Config, s: State) {
    c.reasoning != None && !s.reasoningEnded
  }

  predicate InTool(c: Config, s: State) {
    c.hasTool && s.reasoningEnded
  }

  /** The check of the prompt on the first call that brings one. */
  function CheckPrompt(c: Config, s: State, prompt: Option<seq<Token>>): State {
    if s.promptChecked || prompt == None then s
    else if c.reasoning == None || IsReasoningEnd(c.reasoning.value, prompt.value, false) then
      s.(promptChecked := true, reasoningEnded := true)
    else s.(promptChecked := true)
  }

  /** `extract_content_ids`. */
  function ContentIds(kind: Kind, ids: seq<Token>): seq<Token> {
    var n := FirstOf(EndThink, ids);
    if n + 1 < |ids| then ids[n + 1..]
    else if kind == Qwen3 then LastToolCall(ids, [])
    else []
  }

  /** The ids from the last `<tool_call>` on. */
  function LastToolCall(ids: seq<Token>, after: seq<Token>): seq<Token> {
    if ids == [] then []
    else if ids[|ids| - 1] == ToolCall then [ToolCall] + after
    else LastToolCall(ids[..|ids| - 1], [ids[|ids| - 1]] + after)
  }

  /** The local variables of one call, passed from phase to phase. */
  datatype Work = Work(s: State, text: string, ids: seq<Token>, deltaText: string, message: Option<Delta>)

  function ReasoningPhase(c: Config, w: Work, delta: seq<Token>): Work {
    if !InReasoning(c, w.s) then w
    else
      var kind := c.reasoning.value;
      var m := Streaming(kind, w.s.previousIds, w.deltaText, delta);
      var message := if m == None then None else Some(Delta(m.value.reasoning, m.value.content, []));
      if HasMarker(kind, delta) then
        Work(w.s.(reasoningEnded := true), ContentOf(m), ContentIds(kind, delta), ContentOf(m), message)
      else w.(message := message)
  }

  function ToolPhase(c: Config, w: Work): Work
    requires |w.s.tool.names| == |w.s.tool.streamed|
  {
    if !InTool(c, w.s) then w
    else
      var (tool, content, calls) := Hermes.Step(w.s.tool, w.text, c.isJson);
      var reasoning := if w.message == None then None else NonEmpty(OrEmpty(w.message.value.reasoning));
      var s := w.s.(toolStarted := true, tool := tool);
      var message :=
        if content == "" && calls == [] && reasoning == None then None
        else Some(Delta(reasoning, NonEmpty(content), calls));
      w.(s := s, deltaText := if w.s.toolStarted then w.deltaText else w.text, message := message)
  }

  /** `parse_delta`. */
  function StepDelta(c: Config, s: State, deltaText: string, delta: seq<Token>, prompt: Option<seq<Token>>)
    : (r: (State, Option<Delta>))
    requires |s.tool.names| == |s.tool.streamed|
    ensures |r.0.tool.names| == |r.0.tool.streamed|
  {
    var s0 := CheckPrompt(c, s, prompt);
    var w := ReasoningPhase(c, Work(s0, s0.previousText + deltaText, s0.previousIds + delta, deltaText, None), delta);
    var v := ToolPhase(c, w);
    var message :=
      if v.message == None && !InReasoning(c, v.s) && !InTool(c, v.s) then Some(Delta(None, Some(v.deltaText), []))
      else v.message;
    (v.s.(previousText := v.text, previousIds := v.ids), message)
  }

  // ---- whole streams ----

  datatype Output = Output(reasoning: string, content: string, calls: seq<Hermes.Delta>)

  const NOTHING := Output("", "", [])

  function Append(o: Output, m: Option<Delta>): Output {
    match m
    case None => o
    case Some(d) => Output(o.reasoning + OrEmpty(d.reasoning), o.content + OrEmpty(d.content), o.calls + d.toolCalls)
  }

  function Flatten(chunks: seq<seq<Token>>): seq<Token> {
    if chunks == [] then [] else chunks[0] + Flatten(chunks[1..])
  }

  /** Feeds the chunks one by one; the prompt comes with the first call. */
  function Run(c: Config, s: State, chunks: seq<seq<Token>>, prompt: Option<seq<Token>>, o: Output): (r: (State, Output))
    requires |s.tool.names| == |s.tool.streamed|
    decreases |chunks|
  {
    if chunks == [] then (s, o)
    else
      var (s1, m) := StepDelta(c, s, TextOfAll(chunks[0]), chunks[0], prompt);
      Run(c, s1, chunks[1..], None, Append(o, m))
  }

  /** The stream so far, which follows the tokens `pre`, has been split at its first marker: its reasoning part went to the
      client behind `leak`, and its content part through the tool parser (or straight to the client when there is none). */
  ghost predicate Inv(c: Config, kind: Kind, s: State, pre: seq<Token>, leak: string, seen: seq<Token>, o: Output) {
    && !HasMarker(kind, pre)
    && if !HasMarker(kind, seen) then
         && !s.reasoningEnded && !s.toolStarted && s.tool == Hermes.INITIAL && s.previousIds == pre + seen
         && o == Output(leak + TextOfAll(seen), "", [])
       else
         && s.reasoningEnded && o.reasoning == leak + SplitReasoning(kind, seen)
         && ContentInv(c, s, SplitContent(kind, seen), o)
  }

  ghost predicate ContentInv(c: Config, s: State, content: string, o: Output) {
    if c.hasTool then
      s.toolStarted && s.previousText == content && Hermes.Streamed(c.isJson, s.tool, content, o.content, o.calls)
    else o.content == content && o.calls == []
  }

  lemma SplitStays(kind: Kind, seen: seq<Token>, delta: seq<Token>)
    requires HasMarker(kind, seen)
    ensures HasMarker(kind, seen + delta)
    ensures SplitReasoning(kind, seen + delta) == SplitReasoning(kind, seen)
    ensures SplitContent(kind, seen + delta) == SplitContent(kind, seen) + TextOfAll(delta)
  {
    hide FirstMarker, TextOfAll, SplitReasoning, SplitContent;
    var all, n := seen + delta, FirstMarker(kind, seen);
    SplitFacts(kind, all);
    SplitFacts(kind, seen);
    MarkerExists(kind, seen);
    FirstMarkerInDelta(kind, [], seen, delta);
    assert [] + seen + delta == all;
    LaterSlices(seen, delta, n);
    TextAppends(seen[n..], delta);
    TextAppends(seen[n + 1..], delta);
  }

  lemma MarkerExists(kind: Kind, seen: seq<Token>)
    requires HasMarker(kind, seen)
    ensures FirstMarker(kind, seen) < |seen|
  {
    assert exists i :: 0 <= i < |seen| && IsMarker(kind, seen[i]);
  }

  lemma LaterSlices(seen: seq<Token>, delta: seq<Token>, n: nat)
    requires n < |seen|
    ensures var all := seen + delta;
            all[..n] == seen[..n] && all[n] == seen[n] && all[n..] == seen[n..] + delta && all[n + 1..] == seen[n + 1..] + delta
  {}

  lemma SplitStarts(kind: Kind, seen: seq<Token>, delta: seq<Token>)
    requires !HasMarker(kind, seen) && HasMarker(kind, delta)
    ensures HasMarker(kind, seen + delta)
    ensures SplitReasoning(kind, seen + delta) == TextOfAll(seen) + SplitReasoning(kind, delta)
    ensures SplitContent(kind, seen + delta) == SplitContent(kind, delta)
  {
    hide FirstMarker, TextOfAll, SplitReasoning, SplitContent, HasMarker;
    var n := FirstMarker(kind, delta);
    SplitFacts(kind, seen + delta);
    SplitFacts(kind, delta);
    MarkerExists(kind, delta);
    MarkerLater(kind, seen, delta);
    SlicesOfSum(seen, delta, n);
    TextAppends(seen, delta[..n]);
  }

  lemma MarkerLater(kind: Kind, seen: seq<Token>, delta: seq<Token>)
    requires !HasMarker(kind, seen) && HasMarker(kind, delta)
    ensures HasMarker(kind, seen + delta) && FirstMarker(kind, seen + delta) == |seen| + FirstMarker(kind, delta)
  {
    hide FirstMarker;
    FirstMarkerInDelta(kind, seen, delta, []);
    assert seen + delta + [] == seen + delta;
    assert forall t :: t in seen + delta <==> t in seen || t in delta;
  }

  lemma SlicesOfSum(seen: seq<Token>, delta: seq<Token>, n: nat)
    requires n < |delta|
    ensures var all := seen + delta;
            && all[..|seen| + n] == seen + delta[..n] && all[|seen| + n] == delta[n]
            && all[|seen| + n..] == delta[n..] && all[|seen| + n + 1..] == delta[n + 1..]
  {}

  /** The tool phase continues the tool parser on the longer content. */
  lemma ToolPhaseKeeps(c: Config, w: Work, content: string, o: Output)
    requires InTool(c, w.s) && |w.s.tool.names| == |w.s.tool.streamed| && content <= w.text && Hermes.Streamed(c.isJson, w.s.tool, content, o.content, o.calls)
    ensures var v := ToolPhase(c, w);
            && v.s == w.s.(toolStarted := true, tool := v.s.tool) && v.text == w.text
            && Append(o, v.message).reasoning == o.reasoning + (if w.message == None then "" else OrEmpty(w.message.value.reasoning))
            && Hermes.Streamed(c.isJson, v.s.tool, w.text, Append(o, v.message).content, Append(o, v.message).calls)
  {
    hide Hermes.Streamed, Hermes.Step;
    Hermes.StreamedStep(c.isJson, w.s.tool, content, w.text, o.content, o.calls);
    var (tool, sent, calls) := Hermes.Step(w.s.tool, w.text, c.isJson);
    OrEmptySome(sent);
    if w.message != None { OrEmptySome(OrEmpty(w.message.value.reasoning)); }
    assert o.content + "" == o.content && o.calls + [] == o.calls && o.reasoning + "" == o.reasoning;
  }

  lemma ToolPhaseIdle(c: Config, w: Work)
    requires !InTool(c, w.s) && |w.s.tool.names| == |w.s.tool.streamed|
    ensures ToolPhase(c, w) == w
  {}

  ghost predicate Ready(c: Config, s: State, prompt: Option<seq<Token>>) {
    && |s.tool.names| == |s.tool.streamed|
    && (prompt == None || s.promptChecked || (c.reasoning != None && !IsReasoningEnd(c.reasoning.value, prompt.value, false)))
  }

  /** An open prompt changes nothing but that it has been looked at. */
  lemma OpenPromptChecked(c: Config, s: State, prompt: Option<seq<Token>>)
    requires Ready(c, s, prompt)
    ensures var s0 := CheckPrompt(c, s, prompt); s0 == s.(promptChecked := s0.promptChecked)
  {
    hide IsReasoningEnd;
  }

  /** A message adds to the output what it adds to none. */
  lemma AppendIs(o: Output, m: Option<Delta>)
    ensures var n := Append(NOTHING, m);
            Append(o, m) == Output(o.reasoning + n.reasoning, o.content + n.content, o.calls + n.calls)
  {
    assert o.reasoning + "" == o.reasoning && o.content + "" == o.content && o.calls + [] == o.calls;
    if m.Some? {
      assert "" + OrEmpty(m.value.reasoning) == OrEmpty(m.value.reasoning) && "" + OrEmpty(m.value.content) == OrEmpty(m.value.content);
      assert [] + m.value.toolCalls == m.value.toolCalls;
    }
  }

  lemma AppendReasoning(m: Option<Delta>)
    ensures Append(NOTHING, m).reasoning == if m == None then "" else OrEmpty(m.value.reasoning)
  {
    if m.Some? { assert "" + OrEmpty(m.value.reasoning) == OrEmpty(m.value.reasoning); }
  }

  lemma AppendText(o: Output, text: string)
    ensures Append(o, Some(Delta(None, Some(text), []))) == Output(o.reasoning, o.content + text, o.calls)
  {
    assert o.reasoning + "" == o.reasoning && o.calls + [] == o.calls;
  }

  /** A delta while the reasoning goes on. */
  lemma StepInside(c: Config, kind: Kind, s: State, pre: seq<Token>, leak: string, seen: seq<Token>, delta: seq<Token>,
                   prompt: Option<seq<Token>>, o: Output)
    requires c.reasoning == Some(kind) && Ready(c, s, prompt) && Inv(c, kind, s, pre, leak, seen, o)
    requires !HasMarker(kind, seen) && !HasMarker(kind, delta) && Think !in delta
    ensures var (s', m) := StepDelta(c, s, TextOfAll(delta), delta, prompt);
            Inv(c, kind, s', pre, leak, seen + delta, Append(o, m)) && Ready(c, s', None)
  {
    hide TextOfAll, Hermes.Step, HasMarker, ReasoningPhase, ToolPhase, CheckPrompt, Append;
    OpenPromptChecked(c, s, prompt);
    NoMarkerBefore(kind, pre, seen);
    NoMarkerBefore(kind, seen, delta);
    TextAppends(seen, delta);
    Together(leak, TextOfAll(seen), TextOfAll(delta));
    Together(pre, seen, delta);
    var s0 := CheckPrompt(c, s, prompt);
    InsideWork(c, kind, s0, pre + seen, delta);
    var w := ReasoningPhase(c, Work(s0, s0.previousText + TextOfAll(delta), s0.previousIds + delta, TextOfAll(delta), None), delta);
    ToolPhaseIdle(c, w);
    AppendIs(o, w.message);
  }

  lemma Together<T>(a: seq<T>, b: seq<T>, c: seq<T>)
    ensures a + (b + c) == a + b + c
  {}

  /** What such a delta leaves for the later phases: nothing but its message. */
  lemma InsideWork(c: Config, kind: Kind, s: State, previous: seq<Token>, delta: seq<Token>)
    requires c.reasoning == Some(kind) && !s.reasoningEnded && s.previousIds == previous
    requires !HasMarker(kind, previous) && !HasMarker(kind, delta) && Think !in delta
    ensures var w0 := Work(s, s.previousText + TextOfAll(delta), s.previousIds + delta, TextOfAll(delta), None);
            var w := ReasoningPhase(c, w0, delta);
            && w == w0.(message := w.message) && (w.message.Some? ==> w.message.value.toolCalls == [])
            && Append(NOTHING, w.message) == Output(TextOfAll(delta), "", [])
  {
    hide TextOfAll, Streaming;
    StreamingInside(kind, previous, delta);
  }

  /** The delta at which the reasoning ends: what it leaves for the tool phase. */
  lemma BoundaryWork(c: Config, kind: Kind, s: State, pre: seq<Token>, seen: seq<Token>, delta: seq<Token>, rest: seq<Token>)
    requires c.reasoning == Some(kind) && !s.reasoningEnded && s.previousIds == pre + seen && !HasMarker(kind, pre)
    requires !HasMarker(kind, seen) && HasMarker(kind, delta) && Aligned(kind, seen + delta + rest)
    requires !ToolCallBeforeEnd(kind, delta)
    ensures var text := s.previousText + TextOfAll(delta);
            var w := ReasoningPhase(c, Work(s, text, s.previousIds + delta, TextOfAll(delta), None), delta);
            && w.s == s.(reasoningEnded := true)
            && w.text == w.deltaText == SplitContent(kind, delta)
            && Append(NOTHING, w.message) == Output(SplitReasoning(kind, delta), SplitContent(kind, delta), [])
            && (w.message == None ==> SplitReasoning(kind, delta) == "" && SplitContent(kind, delta) == "")
  {
    hide TextOfAll, Streaming, SplitReasoning, SplitContent, ToolCallBeforeEnd, ContentIds, FirstMarker, TextOf, Find, FirstTagIsToken,
         Aligned, HasMarker;
    NoThink(kind, seen, delta, rest);
    MarkerDeltaIsAligned(kind, seen, delta, rest);
    NoMarkerBefore(kind, pre, seen);
    StreamingAtMarker(kind, pre + seen, delta);
  }

  lemma NoMarkerBefore(kind: Kind, pre: seq<Token>, seen: seq<Token>)
    requires !HasMarker(kind, pre) && !HasMarker(kind, seen)
    ensures !HasMarker(kind, pre + seen)
  {}

  lemma StepAtMarker(c: Config, kind: Kind, s: State, pre: seq<Token>, leak: string, seen: seq<Token>, delta: seq<Token>,
                     rest: seq<Token>, prompt: Option<seq<Token>>, o: Output)
    requires c.reasoning == Some(kind) && Ready(c, s, prompt) && Inv(c, kind, s, pre, leak, seen, o)
    requires !HasMarker(kind, seen) && HasMarker(kind, delta) && Aligned(kind, seen + delta + rest)
    requires !ToolCallBeforeEnd(kind, delta)
    ensures var (s', m) := StepDelta(c, s, TextOfAll(delta), delta, prompt);
            Inv(c, kind, s', pre, leak, seen + delta, Append(o, m)) && Ready(c, s', None)
  {
    hide TextOfAll, Hermes.Step, Hermes.Streamed, ToolPhase, ReasoningPhase, SplitReasoning, SplitContent,
         ToolCallBeforeEnd, HasMarker, Aligned, CheckPrompt, Append;
    OpenPromptChecked(c, s, prompt);
    var s0 := CheckPrompt(c, s, prompt);
    BoundaryWork(c, kind, s0, pre, seen, delta, rest);
    SplitStarts(kind, seen, delta);
    var w := ReasoningPhase(c, Work(s0, s0.previousText + TextOfAll(delta), s0.previousIds + delta, TextOfAll(delta), None), delta);
    if c.hasTool {
      Hermes.StreamedStart(c.isJson);
      ToolPhaseKeeps(c, w, "", o);
    } else {
      ToolPhaseIdle(c, w);
    }
    AppendIs(o, w.message);
    AppendReasoning(w.message);
    AppendText(o, "");
    assert "" + w.text == w.text && o.content + w.text == w.text && o.calls + [] == [];
    Together(leak, TextOfAll(seen), SplitReasoning(kind, delta));
  }

  /** A delta after the reasoning has ended. */
  lemma StepAfter(c: Config, kind: Kind, s: State, pre: seq<Token>, leak: string, seen: seq<Token>, delta: seq<Token>,
                  prompt: Option<seq<Token>>, o: Output)
    requires c.reasoning == Some(kind) && Ready(c, s, prompt) && Inv(c, kind, s, pre, leak, seen, o)
    requires HasMarker(kind, seen)
    ensures var (s', m) := StepDelta(c, s, TextOfAll(delta), delta, prompt);
            Inv(c, kind, s', pre, leak, seen + delta, Append(o, m)) && Ready(c, s', None)
  {
    hide TextOfAll, Streaming, Hermes.Step, IsReasoningEnd, Hermes.Streamed, ToolPhase, SplitReasoning, SplitContent,
         FirstMarker, HasMarker;
    SplitStays(kind, seen, delta);
    var s0 := CheckPrompt(c, s, prompt);
    var w := Work(s0, s0.previousText + TextOfAll(delta), s0.previousIds + delta, TextOfAll(delta), None);
    if c.hasTool { ToolPhaseKeeps(c, w, SplitContent(kind, seen), o); } else { ToolPhaseIdle(c, w); }
    assert o.reasoning + "" == o.reasoning && o.calls + [] == o.calls;
  }

  // ---- the stream as a whole ----

  lemma FirstOfAppends(t: Token, a: seq<Token>, b: seq<Token>)
    ensures FirstOf(t, a + b) == (if t in a then FirstOf(t, a) else |a| + FirstOf(t, b))
  {
    assert forall i | 0 <= i < |a| :: (a + b)[i] == a[i];
    assert forall i | 0 <= i < |b| :: (a + b)[|a| + i] == b[i];
  }

  /** The chunk that brings the first marker has no tool call before its `</think>`. */
  ghost predicate BoundaryOk(kind: Kind, chunks: seq<seq<Token>>) {
    chunks == [] || (if HasMarker(kind, chunks[0]) then !ToolCallBeforeEnd(kind, chunks[0]) else BoundaryOk(kind, chunks[1..]))
  }

  lemma {:induction false} BoundaryOfStream(kind: Kind, chunks: seq<seq<Token>>)
    requires !ToolCallBeforeEnd(kind, Flatten(chunks))
    ensures BoundaryOk(kind, chunks)
  {
    hide FirstOf;
    if chunks != [] {
      FirstOfAppends(EndThink, chunks[0], Flatten(chunks[1..]));
      FirstOfAppends(ToolCall, chunks[0], Flatten(chunks[1..]));
      if !HasMarker(kind, chunks[0]) { BoundaryOfStream(kind, chunks[1..]); }
    }
  }

  lemma {:induction false} RunKeepsInv(c: Config, kind: Kind, s: State, chunks: seq<seq<Token>>, prompt: Option<seq<Token>>,
                                       pre: seq<Token>, leak: string, seen: seq<Token>, o: Output)
    requires c.reasoning == Some(kind) && Ready(c, s, prompt) && Inv(c, kind, s, pre, leak, seen, o)
    requires Aligned(kind, seen + Flatten(chunks)) && (HasMarker(kind, seen) || BoundaryOk(kind, chunks))
    ensures var (s', o') := Run(c, s, chunks, prompt, o); Inv(c, kind, s', pre, leak, seen + Flatten(chunks), o')
    decreases |chunks|
  {
    hide StepDelta, Inv, Aligned, ToolCallBeforeEnd, HasMarker, IsReasoningEnd;
    if chunks == [] {
      assert seen + [] == seen;
    } else {
      var delta, rest := chunks[0], Flatten(chunks[1..]);
      assert seen + Flatten(chunks) == seen + delta + rest;
      if HasMarker(kind, seen) {
        StepAfter(c, kind, s, pre, leak, seen, delta, prompt, o);
        SplitStays(kind, seen, delta);
      } else if HasMarker(kind, delta) {
        StepAtMarker(c, kind, s, pre, leak, seen, delta, rest, prompt, o);
        SplitStarts(kind, seen, delta);
      } else {
        NoThink(kind, seen, delta, rest);
        StepInside(c, kind, s, pre, leak, seen, delta, prompt, o);
      }
      var (s1, m) := StepDelta(c, s, TextOfAll(delta), delta, prompt);
      RunKeepsInv(c, kind, s1, chunks[1..], None, pre, leak, seen + delta, Append(o, m));
    }
  }

  lemma NoThink(kind: Kind, seen: seq<Token>, delta: seq<Token>, rest: seq<Token>)
    requires Aligned(kind, seen + delta + rest)
    ensures Think !in seen && Think !in delta
  {
    hide Find, FirstTagIsToken;
    assert forall t :: t in seen || t in delta ==> t in seen + delta + rest;
  }

  /** The content has gone to the client: through the tool parser, under some chunking, or as it is. */
  ghost predicate Delivered(c: Config, s: State, content: string, o: Output) {
    if c.hasTool then Hermes.Streamed(c.isJson, s.tool, content, o.content, o.calls)
    else o.content == content && o.calls == []
  }

  /** The prompt does not close the reasoning, or is not given. */
  ghost predicate OpenPrompt(kind: Kind, prompt: Option<seq<Token>>) {
    prompt == None || !IsReasoningEnd(kind, prompt.value, false)
  }

  /** However an aligned stream is cut, as long as no boundary chunk holds a tool call before its
      `</think>`, it is split at its first marker. */
  lemma StreamSplitsAtFirstMarker(c: Config, kind: Kind, prompt: Option<seq<Token>>, chunks: seq<seq<Token>>)
    requires c.reasoning == Some(kind) && OpenPrompt(kind, prompt)
    requires Aligned(kind, Flatten(chunks)) && BoundaryOk(kind, chunks)
    ensures var (s, o) := Run(c, INITIAL, chunks, prompt, NOTHING);
            o.reasoning == SplitReasoning(kind, Flatten(chunks)) && Delivered(c, s, SplitContent(kind, Flatten(chunks)), o)
  {
    hide Run, Aligned, BoundaryOk, FirstMarker, TextOfAll, IsReasoningEnd, Hermes.Streamed;
    var ts := Flatten(chunks);
    EmptyText();
    assert [] + ts == ts;
    assert [] + [] == INITIAL.previousIds && "" + "" == "";
    RunKeepsInv(c, kind, INITIAL, chunks, prompt, [], "", [], NOTHING);
    assert "" + SplitReasoning(kind, ts) == SplitReasoning(kind, ts) && "" + TextOfAll(ts) == TextOfAll(ts);
    if !HasMarker(kind, ts) {
      assert FirstMarker(kind, ts) == |ts| && ts[..|ts|] == ts;
      Hermes.StreamedStart(c.isJson);
    }
  }

  /** Streaming and non-streaming give the client the same reasoning and the same content. */
  ghost predicate Agrees(c: Config, kind: Kind, prompt: Option<seq<Token>>, chunks: seq<seq<Token>>) {
    var (s, o) := Run(c, INITIAL, chunks, prompt, NOTHING);
    var (reasoning, content) := ExtractReasoning(kind, TextOfAll(Flatten(chunks)), true);
    o.reasoning == OrEmpty(reasoning) && Delivered(c, s, OrEmpty(content), o)
  }

  function Singles(ts: seq<Token>): seq<seq<Token>> {
    if ts == [] then [] else [[ts[0]]] + Singles(ts[1..])
  }

  lemma {:induction false} SinglesFlatten(kind: Kind, ts: seq<Token>)
    ensures Flatten(Singles(ts)) == ts && BoundaryOk(kind, Singles(ts))
  {
    if ts != [] {
      SinglesFlatten(kind, ts[1..]);
      assert Singles(ts)[1..] == Singles(ts[1..]);
      assert [ts[0]] + ts[1..] == ts;
    }
  }

  /** For an aligned stream, every way of cutting it into deltas agrees with the non-streaming
      extractor exactly when no tool call opens before `</think>`. */
  lemma StreamingAgreesIff(c: Config, kind: Kind, prompt: Option<seq<Token>>, ts: seq<Token>)
    requires c.reasoning == Some(kind) && OpenPrompt(kind, prompt) && Aligned(kind, ts)
    ensures (forall chunks | Flatten(chunks) == ts :: Agrees(c, kind, prompt, chunks)) <==> !ToolCallBeforeEnd(kind, ts)
  {
    hide Run, Aligned, BoundaryOk, ToolCallBeforeEnd, SplitReasoning, SplitContent, ExtractReasoning, TextOfAll, IsReasoningEnd, Delivered, Singles;
    if ToolCallBeforeEnd(kind, ts) {
      var chunks := Singles(ts);
      SinglesFlatten(kind, ts);
      StreamSplitsAtFirstMarker(c, kind, prompt, chunks);
      NonStreamingKeepsToolCall(kind, ts);
      assert !Agrees(c, kind, prompt, chunks);
    } else {
      NonStreamingSplit(kind, ts);
      forall chunks | Flatten(chunks) == ts ensures Agrees(c, kind, prompt, chunks) {
        BoundaryOfStream(kind, chunks);
        StreamSplitsAtFirstMarker(c, kind, prompt, chunks);
      }
    }
  }

  /** A finished tool call of the content reaches the client complete and exact, through all phases. */
  lemma FinishedCallIsExact(c: Config, kind: Kind, prompt: Option<seq<Token>>, chunks: seq<seq<Token>>, i: nat)
    requires c.reasoning == Some(kind) && c.hasTool && OpenPrompt(kind, prompt)
    requires Aligned(kind, Flatten(chunks)) && !ToolCallBeforeEnd(kind, Flatten(chunks))
    requires Hermes.FinishedCall(OrEmpty(ExtractReasoning(kind, TextOfAll(Flatten(chunks)), true).1), i, c.isJson)
    ensures var content := OrEmpty(ExtractReasoning(kind, TextOfAll(Flatten(chunks)), true).1);
            var json := Hermes.Regions(content, 0)[i].json;
            var o := Run(c, INITIAL, chunks, prompt, NOTHING).1;
            && o.content == content[..Sendable(content, Hermes.START)]
            && Hermes.NamesFor(o.calls, i) == [Hermes.NameOf(json).value]
            && Hermes.ArgsFor(o.calls, i) == Hermes.FinalArgs(json)
  {
    hide Run, Hermes.Run, Hermes.Regions, Hermes.NameOf, Hermes.FinalArgs, Hermes.NamesFor, Hermes.ArgsFor, Sendable,
         ExtractReasoning, IsReasoningEnd, TextOfAll, Aligned, ToolCallBeforeEnd, Hermes.RawArgs, Hermes.ArgText;
    StreamingAgreesIff(c, kind, prompt, Flatten(chunks));
    assert Agrees(c, kind, prompt, chunks);
    var content := OrEmpty(ExtractReasoning(kind, TextOfAll(Flatten(chunks)), true).1);
    var (s, o) := Run(c, INITIAL, chunks, prompt, NOTHING);
    var cs :| Hermes.Concat(cs) == content && Hermes.Run(Hermes.INITIAL, "", cs, c.isJson) == (s.tool, o.content, o.calls);
    Hermes.ArgumentsAreExact(cs, i, c.isJson);
    Hermes.StreamingIsChunkIndependent(cs, c.isJson, i);
  }

  // ---- the parser object ----

  class Parser {
    const config: Config
    const toolParser: Hermes.Hermes2ProToolParser?
    var reasoningEnded: bool
    var toolCallTextStarted: bool
    var promptReasoningChecked: bool
    var previousText: string
    var previousTokenIds: seq<Token>

    function Abs(): State
      reads this, toolParser
    {
      State(reasoningEnded, toolCallTextStarted, promptReasoningChecked, previousText, previousTokenIds,
            if toolParser == null then Hermes.INITIAL else toolParser.Abs())
    }

    ghost predicate Valid()
      reads this, toolParser
    {
      && config.hasTool == (toolParser != null)
      && (toolParser != null ==> toolParser.isJson == config.isJson
                                 && |toolParser.prevToolCallArr| == |toolParser.streamedArgsForTool|)
    }

    constructor (config: Config, tool: Hermes.Hermes2ProToolParser?)
      requires config.hasTool == (tool != null)
      requires tool != null ==> tool.isJson == config.isJson && tool.Abs() == Hermes.INITIAL
      ensures Valid() && Abs() == INITIAL && this.config == config && toolParser == tool
    {
      this.config, toolParser := config, tool;
      reasoningEnded, toolCallTextStarted, promptReasoningChecked := false, false, false;
      previousText, previousTokenIds := "", [];
    }

    /** Runs the tool parser on the text so far, keeping the reasoning of a boundary delta. */
    method AddToolCalls(text: string, boundary: Option<Delta>) returns (message: Option<Delta>)
      requires Valid() && toolParser != null
      modifies toolParser
      ensures Valid()
      ensures var (tool, content, calls) := Hermes.Step(old(toolParser.Abs()), text, config.isJson);
              var reasoning := if boundary == None then None else NonEmpty(OrEmpty(boundary.value.reasoning));
              && toolParser.Abs() == tool
              && message == (if content == "" && calls == [] && reasoning == None then None
                             else Some(Delta(reasoning, NonEmpty(content), calls)))
    {
      hide Hermes.Step;
      var reasoning := if boundary == None then None else NonEmpty(OrEmpty(boundary.value.reasoning));
      var content, calls := toolParser.ExtractToolCallsStreaming(text);
      message := if content == None && calls == [] then None else Some(Delta(None, content, calls));
      if reasoning != None {
        message := Some(if message == None then Delta(reasoning, None, []) else message.value.(reasoning := reasoning));
      }
    }

    /** The reasoning phase of one call: the local variables it leaves for the later phases. */
    method ExtractReasoningDelta(deltaText: string, deltaTokenIds: seq<Token>)
      returns (text: string, ids: seq<Token>, delta: string, message: Option<Delta>)
      modifies this`reasoningEnded
      ensures Work(Abs(), text, ids, delta, message) ==
              ReasoningPhase(config, Work(old(Abs()), previousText + deltaText, previousTokenIds + deltaTokenIds, deltaText, None), deltaTokenIds)
    {
      hide Streaming, ContentIds, HasMarker, ContentOf;
      text, ids, delta, message := previousText + deltaText, previousTokenIds + deltaTokenIds, deltaText, None;
      if config.reasoning != None && !reasoningEnded {
        var kind := config.reasoning.value;
        var m := Streaming(kind, previousTokenIds, deltaText, deltaTokenIds);
        if m != None {
          message := Some(Delta(m.value.reasoning, m.value.content, []));
        }
        if HasMarker(kind, deltaTokenIds) {
          reasoningEnded := true;
          ids := ContentIds(kind, deltaTokenIds);
          text := ContentOf(m);
          delta := text;
        }
      }
    }

    /** With the first call that brings the prompt: is its reasoning already closed? */
    method CheckPromptOnce(prompt: Option<seq<Token>>)
      modifies this`reasoningEnded, this`promptReasoningChecked
      ensures Abs() == CheckPrompt(config, old(Abs()), prompt)
    {
      hide IsReasoningEnd;
      if !promptReasoningChecked && prompt != None {
        promptReasoningChecked := true;
        if config.reasoning == None || IsReasoningEnd(config.reasoning.value, prompt.value, false) {
          reasoningEnded := true;
        }
      }
    }

    /** The tool phase of one call. */
    method ExtractToolDelta(text: string, ids: seq<Token>, deltaText: string, boundary: Option<Delta>)
      returns (delta: string, message: Option<Delta>)
      requires Valid() && config.hasTool && reasoningEnded
      modifies this`toolCallTextStarted, this`previousText, this`previousTokenIds, toolParser
      ensures Valid()
      ensures var v := ToolPhase(config, Work(old(Abs()), text, ids, deltaText, boundary));
              && delta == v.deltaText && message == v.message
              && Abs() == v.s.(previousText := previousText, previousIds := previousTokenIds)
    {
      hide Hermes.Step, NonEmpty, OrEmpty;
      delta := deltaText;
      if !toolCallTextStarted {
        toolCallTextStarted := true;
        previousText, previousTokenIds := "", [];
        delta := text;
      }
      message := AddToolCalls(text, boundary);
    }

    method ParseDelta(deltaText: string, deltaTokenIds: seq<Token>, prompt: Option<seq<Token>>) returns (message: Option<Delta>)
      requires Valid()
      modifies this, toolParser
      ensures Valid() && (Abs(), message) == StepDelta(config, old(Abs()), deltaText, deltaTokenIds, prompt)
    {
      hide ReasoningPhase, Hermes.Step, ToolPhase, CheckPrompt;
      CheckPromptOnce(prompt);
      var text, ids, delta;
      text, ids, delta, message := ExtractReasoningDelta(deltaText, deltaTokenIds);
      ToolPhaseFrame(config, Work(Abs(), text, ids, delta, message));
      if config.hasTool && reasoningEnded {
        delta, message := ExtractToolDelta(text, ids, delta, message);
      }
      if message == None && !(config.reasoning != None && !reasoningEnded) && !(config.hasTool && reasoningEnded) {
        message := Some(Delta(None, Some(delta), []));
      }
      previousText, previousTokenIds := text, ids;
    }
  }

  lemma ToolPhaseFrame(c: Config, w: Work)
    requires |w.s.tool.names| == |w.s.tool.streamed|
    ensures !InTool(c, w.s) ==> ToolPhase(c, w) == w
    ensures ToolPhase(c, w).s.reasoningEnded == w.s.reasoningEnded && ToolPhase(c, w).text == w.text && ToolPhase(c, w).ids == w.ids
  {
    hide Hermes.Step;
  }
}
