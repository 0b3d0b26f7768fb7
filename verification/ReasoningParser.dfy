/** The reasoning parsers: splitting model output into reasoning and content at `</think>`,
    over whole texts and over streaming deltas. */
module ReasoningParser {
  import opened Text

  const THINK := "<think>"
  const END_THINK := "</think>"
  const TOOL_CALL := "<tool_call>"
  const TOOL_CALL_END := "</tool_call>"

  /** A vocabulary entry: the four tags with ids of their own, or ordinary text. */
  datatype Token = Think | EndThink | ToolCall | ToolCallEnd | Plain(text: string)

  function TextOf(t: Token): string {
    match t
    case Think => THINK
    case EndThink => END_THINK
    case ToolCall => TOOL_CALL
    case ToolCallEnd => TOOL_CALL_END
    case Plain(text) => text
  }

  function TextOfAll(ts: seq<Token>): string {
    if ts == [] then "" else TextOf(ts[0]) + TextOfAll(ts[1..])
  }

  lemma {:induction false} TextAppends(a: seq<Token>, b: seq<Token>)
    ensures TextOfAll(a + b) == TextOfAll(a) + TextOfAll(b)
  {
    if a == [] {
      assert a + b == b;
    } else {
      assert (a + b)[1..] == a[1..] + b;
      TextAppends(a[1..], b);
    }
  }

  datatype Kind = Qwen3 | DeepSeekR1

  /** A `DeltaMessage`; an absent field is None. */
  datatype Message = Message(reasoning: Option<string>, content: Option<string>)

  /** `x if x else None`. */
  function NonEmpty(s: string): Option<string> {
    if s == "" then None else Some(s)
  }

  function OrEmpty(o: Option<string>): string {
    match o case None => "" case Some(s) => s
  }

  // ---- whole outputs ----

  /** `partition(<think>)`: what follows the first start tag, or everything. */
  function WithoutThink(output: string): string {
    var at := Find(output, THINK, 0);
    if at == -1 then output else output[at + |THINK|..]
  }

  /** `extract_reasoning`. */
  function ExtractReasoning(kind: Kind, output: string, thinkingEnabled: bool): (Option<string>, Option<string>) {
    var text := WithoutThink(output);
    var end := Find(text, END_THINK, 0);
    if end != -1 then (Some(text[..end]), NonEmpty(text[end + |END_THINK|..]))
    else if kind == DeepSeekR1 then (Some(text), None)
    else if !thinkingEnabled then (None, Some(text))
    else
      var call := Find(text, TOOL_CALL, 0);
      if call != -1 then (NonEmpty(text[..call]), NonEmpty(text[call..]))
      else (Some(text), None)
  }

  // ---- token ids ----

  /** `is_reasoning_end`: scans a prompt backwards; `later` says whether `</tool_call>` follows. */
  predicate IsReasoningEnd(kind: Kind, ids: seq<Token>, later: bool) {
    if ids == [] then false
    else
      var rest := ids[..|ids| - 1];
      match ids[|ids| - 1]
      case Think => false
      case EndThink => true
      case ToolCall => if kind == Qwen3 && !later then true else IsReasoningEnd(kind, rest, later)
      case ToolCallEnd => IsReasoningEnd(kind, rest, true)
      case Plain(_) => IsReasoningEnd(kind, rest, later)
  }

  /** The tokens at which the streaming parser leaves the reasoning phase. */
  predicate IsMarker(kind: Kind, t: Token) {
    t == EndThink || (kind == Qwen3 && t == ToolCall)
  }

  /** `is_reasoning_end_streaming`. */
  predicate HasMarker(kind: Kind, ids: seq<Token>) {
    EndThink in ids || (kind == Qwen3 && ToolCall in ids)
  }

  // ---- streaming deltas ----

  /** `s[:i]` with an index that may be -1, as `find` returns it. */
  function UpTo(s: string, i: int): string {
    if i < 0 then (if s == "" then "" else s[..|s| - 1]) else if i <= |s| then s[..i] else s
  }

  /** `s[i:]`. */
  function Drop(s: string, i: nat): string {
    if i <= |s| then s[i..] else ""
  }

  /** `Qwen3ReasoningParser.extract_reasoning_streaming`. */
  function Qwen3Streaming(previous: seq<Token>, deltaText: string, delta: seq<Token>): Option<Message> {
    var start := Find(deltaText, THINK, 0);
    var text := if Think in delta && start >= 0 then deltaText[start + |THINK|..] else deltaText;
    var end := Find(text, END_THINK, 0);
    var call := Find(text, TOOL_CALL, 0);
    if EndThink in delta then
      if end < 0 then None
      else
        var reasoning, content := text[..end], text[end + |END_THINK|..];
        if reasoning == "" && content == "" then None
        else Some(Message(NonEmpty(reasoning), NonEmpty(content)))
    else if ToolCall in delta && call >= 0 then
      Some(Message(NonEmpty(text[..call]), NonEmpty(text[call..])))
    else if text == "" then None
    else if EndThink in previous || ToolCall in previous then Some(Message(None, Some(text)))
    else Some(Message(Some(text), None))
  }

  /** `BaseThinkingReasoningParser.extract_reasoning_streaming`. */
  function BaseStreaming(previous: seq<Token>, deltaText: string, delta: seq<Token>): Option<Message> {
    var end := Find(deltaText, END_THINK, 0);
    var content := NonEmpty(Drop(deltaText, end + |END_THINK|));
    if |delta| == 1 && (delta[0] == Think || delta[0] == EndThink) then None
    else if Think in previous then
      if EndThink in delta then Some(Message(Some(UpTo(deltaText, end)), content))
      else if EndThink in previous then Some(Message(None, Some(deltaText)))
      else Some(Message(Some(deltaText), None))
    else if Think in delta then
      if EndThink in delta then
        var start := Find(deltaText, THINK, 0);
        Some(Message(Some(Drop(UpTo(deltaText, end), start + |THINK|)), content))
      else Some(Message(Some(deltaText), None))
    else Some(Message(None, Some(deltaText)))
  }

  /** `DeepSeekR1ReasoningParser.extract_reasoning_streaming`. */
  function DeepSeekStreaming(previous: seq<Token>, deltaText: string, delta: seq<Token>): Option<Message> {
    var base := BaseStreaming(previous, deltaText, delta);
    if base == None || Think in previous || Think in delta then base
    else if EndThink in delta then
      var end := Find(deltaText, END_THINK, 0);
      Some(Message(Some(UpTo(deltaText, end)), NonEmpty(Drop(deltaText, end + |END_THINK|))))
    else if EndThink in previous then Some(Message(None, Some(deltaText)))
    else Some(Message(Some(deltaText), None))
  }

  function Streaming(kind: Kind, previous: seq<Token>, deltaText: string, delta: seq<Token>): Option<Message> {
    match kind
    case Qwen3 => Qwen3Streaming(previous, deltaText, delta)
    case DeepSeekR1 => DeepSeekStreaming(previous, deltaText, delta)
  }

  function ReasoningOf(m: Option<Message>): string {
    match m case None => "" case Some(m) => OrEmpty(m.reasoning)
  }

  function ContentOf(m: Option<Message>): string {
    match m case None => "" case Some(m) => OrEmpty(m.content)
  }

  // ---- where a stream splits ----

  /** The index of the first marker, or the length. */
  function FirstMarker(kind: Kind, ts: seq<Token>): (n: nat)
    ensures n <= |ts|
    ensures n < |ts| ==> IsMarker(kind, ts[n])
    ensures forall i | 0 <= i < n :: !IsMarker(kind, ts[i])
  {
    if ts == [] || IsMarker(kind, ts[0]) then 0 else 1 + FirstMarker(kind, ts[1..])
  }

  /** The first token of a given kind, or the length. */
  function FirstOf(t: Token, ts: seq<Token>): (n: nat)
    ensures n <= |ts|
    ensures n < |ts| ==> ts[n] == t
    ensures n == |ts| <==> t !in ts
    ensures forall i | 0 <= i < n :: ts[i] != t
  {
    if ts == [] || ts[0] == t then 0 else 1 + FirstOf(t, ts[1..])
  }

  /** The reasoning text of a stream that splits at its first marker. */
  function SplitReasoning(kind: Kind, ts: seq<Token>): string {
    TextOfAll(ts[..FirstMarker(kind, ts)])
  }

  /** The content text: after `</think>`, or from `<tool_call>` on. */
  function SplitContent(kind: Kind, ts: seq<Token>): string {
    var n := FirstMarker(kind, ts);
    if n == |ts| then "" else if ts[n] == EndThink then TextOfAll(ts[n + 1..]) else TextOfAll(ts[n..])
  }

  /** The first textual `tag` is the first token that stands for it. */
  ghost predicate FirstTagIsToken(tag: string, t: Token, ts: seq<Token>) {
    Find(TextOfAll(ts), tag, 0) == (if t in ts then |TextOfAll(ts[..FirstOf(t, ts)])| else -1)
  }

  /** The text shows its markers where the tokens have them, and has no `<think>`. */
  ghost predicate Aligned(kind: Kind, ts: seq<Token>) {
    && Think !in ts && Find(TextOfAll(ts), THINK, 0) == -1
    && FirstTagIsToken(END_THINK, EndThink, ts)
    && (kind == Qwen3 && FirstOf(ToolCall, ts) <= FirstOf(EndThink, ts) ==> FirstTagIsToken(TOOL_CALL, ToolCall, ts))
  }

  /** A tool call opens before the reasoning is closed. */
  predicate ToolCallBeforeEnd(kind: Kind, ts: seq<Token>) {
    kind == Qwen3 && EndThink in ts && FirstOf(ToolCall, ts) < FirstOf(EndThink, ts)
  }

  lemma FirstMarkerIs(kind: Kind, ts: seq<Token>)
    ensures FirstMarker(kind, ts) ==
            (if kind == Qwen3 && FirstOf(ToolCall, ts) < FirstOf(EndThink, ts) then FirstOf(ToolCall, ts) else FirstOf(EndThink, ts))
  {}

  lemma TextUnfolds(ts: seq<Token>, n: nat)
    requires n < |ts|
    ensures TextOfAll(ts[n..]) == TextOf(ts[n]) + TextOfAll(ts[n + 1..])
  {
    hide TextOf;
    assert ts[n..][1..] == ts[n + 1..];
  }

  lemma TextSplits(ts: seq<Token>, n: nat)
    requires n <= |ts|
    ensures TextOfAll(ts) == TextOfAll(ts[..n]) + TextOfAll(ts[n..])
    ensures n < |ts| ==> TextOfAll(ts[n..]) == TextOf(ts[n]) + TextOfAll(ts[n + 1..])
  {
    hide TextOf;
    assert ts == ts[..n] + ts[n..];
    TextAppends(ts[..n], ts[n..]);
    if n < |ts| { TextUnfolds(ts, n); }
  }

  lemma OrEmptySome(s: string)
    ensures OrEmpty(Some(s)) == s && OrEmpty(NonEmpty(s)) == s && OrEmpty(None) == ""
  {}

  lemma SplitsAtTag(before: string, tag: string, after: string)
    ensures var text := before + (tag + after);
            text[..|before|] == before && text[|before|..] == tag + after && text[|before| + |tag|..] == after
  {}

  /** What alignment says about the text around the first marker. */
  lemma AlignedFacts(kind: Kind, ts: seq<Token>)
    requires Aligned(kind, ts) && !ToolCallBeforeEnd(kind, ts)
    ensures var n, text := FirstMarker(kind, ts), TextOfAll(ts);
            && Find(text, THINK, 0) == -1
            && (n == |ts| ==> Find(text, END_THINK, 0) == -1 && (kind == Qwen3 ==> Find(text, TOOL_CALL, 0) == -1))
            && (n < |ts| && ts[n] == EndThink ==> Find(text, END_THINK, 0) == |TextOfAll(ts[..n])|)
            && (n < |ts| && ts[n] != EndThink ==>
                  && ts[n] == ToolCall && kind == Qwen3
                  && Find(text, END_THINK, 0) == -1 && Find(text, TOOL_CALL, 0) == |TextOfAll(ts[..n])|)
  {
    hide Find, FirstMarker, FirstOf, TextOfAll;
    FirstMarkerIs(kind, ts);
  }

  lemma SplitFacts(kind: Kind, ts: seq<Token>)
    ensures var n := FirstMarker(kind, ts);
            && SplitReasoning(kind, ts) == TextOfAll(ts[..n])
            && (n == |ts| ==> SplitContent(kind, ts) == "" && SplitReasoning(kind, ts) == TextOfAll(ts))
            && (n < |ts| && ts[n] == EndThink ==> SplitContent(kind, ts) == TextOfAll(ts[n + 1..]))
            && (n < |ts| && ts[n] != EndThink ==> SplitContent(kind, ts) == TextOfAll(ts[n..]))
  {
    hide TextOfAll, FirstMarker;
    assert ts[..|ts|] == ts;
  }

  lemma ExtractAtEnd(kind: Kind, text: string, before: string, after: string)
    requires Find(text, THINK, 0) == -1 && text == before + (END_THINK + after) && Find(text, END_THINK, 0) == |before|
    ensures ExtractReasoning(kind, text, true) == (Some(before), NonEmpty(after))
  {
    hide Find, NonEmpty;
    SplitsAtTag(before, END_THINK, after);
  }

  lemma ExtractAtCall(text: string, before: string, after: string)
    requires Find(text, THINK, 0) == -1 && Find(text, END_THINK, 0) == -1
    requires text == before + (TOOL_CALL + after) && Find(text, TOOL_CALL, 0) == |before|
    ensures ExtractReasoning(Qwen3, text, true) == (NonEmpty(before), NonEmpty(TOOL_CALL + after))
  {
    hide Find, NonEmpty;
    SplitsAtTag(before, TOOL_CALL, after);
  }

  lemma ExtractWhole(kind: Kind, text: string)
    requires Find(text, THINK, 0) == -1 && Find(text, END_THINK, 0) == -1 && (kind == Qwen3 ==> Find(text, TOOL_CALL, 0) == -1)
    ensures ExtractReasoning(kind, text, true) == (Some(text), None)
  {
    hide Find, NonEmpty;
  }

  /** The non-streaming extractor splits an aligned output at its first marker, unless a tool call
      opens before `</think>`: then it gives that tool call to the reasoning. */
  lemma NonStreamingSplit(kind: Kind, ts: seq<Token>)
    requires Aligned(kind, ts) && !ToolCallBeforeEnd(kind, ts)
    ensures var (reasoning, content) := ExtractReasoning(kind, TextOfAll(ts), true);
            OrEmpty(reasoning) == SplitReasoning(kind, ts) && OrEmpty(content) == SplitContent(kind, ts)
  {
    hide Find, FirstMarker, FirstOf, TextOfAll, NonEmpty, OrEmpty, ExtractReasoning, SplitReasoning, SplitContent, Aligned, ToolCallBeforeEnd;
    AlignedFacts(kind, ts);
    SplitFacts(kind, ts);
    var n, text := FirstMarker(kind, ts), TextOfAll(ts);
    TextSplits(ts, n);
    OrEmptySome(SplitReasoning(kind, ts));
    OrEmptySome(SplitContent(kind, ts));
    if n == |ts| {
      ExtractWhole(kind, text);
    } else if ts[n] == EndThink {
      ExtractAtEnd(kind, text, TextOfAll(ts[..n]), TextOfAll(ts[n + 1..]));
    } else {
      ExtractAtCall(text, TextOfAll(ts[..n]), TextOfAll(ts[n + 1..]));
    }
  }

  lemma NonStreamingKeepsToolCall(kind: Kind, ts: seq<Token>)
    requires Aligned(kind, ts) && ToolCallBeforeEnd(kind, ts)
    ensures |OrEmpty(ExtractReasoning(kind, TextOfAll(ts), true).0)| > |SplitReasoning(kind, ts)|
  {
    hide Find, FirstMarker, FirstOf, TextOfAll;
    FirstMarkerIs(kind, ts);
    var n, e := FirstMarker(kind, ts), FirstOf(EndThink, ts);
    TextSplits(ts, e);
    TextSplits(ts[..e], n);
    assert ts[..e][..n] == ts[..n] && ts[..e][n] == ToolCall;
  }

  /** A delta without markers is reasoning. */
  lemma StreamingInside(kind: Kind, previous: seq<Token>, delta: seq<Token>)
    requires !HasMarker(kind, previous) && !HasMarker(kind, delta) && Think !in delta
    ensures var m := Streaming(kind, previous, TextOfAll(delta), delta);
            ReasoningOf(m) == TextOfAll(delta) && ContentOf(m) == ""
  {
    hide Find;
  }

  lemma DeepSeekAtMarker(previous: seq<Token>, text: string, delta: seq<Token>, before: string, after: string)
    requires EndThink in delta && Think !in delta && |delta| != 1
    requires text == before + (END_THINK + after) && Find(text, END_THINK, 0) == |before|
    ensures DeepSeekStreaming(previous, text, delta) == Some(Message(Some(before), NonEmpty(after)))
  {
    hide Find;
    SplitsAtTag(before, END_THINK, after);
  }

  lemma Qwen3AtMarker(previous: seq<Token>, text: string, delta: seq<Token>, before: string, after: string)
    requires EndThink in delta && Think !in delta
    requires text == before + (END_THINK + after) && Find(text, END_THINK, 0) == |before|
    ensures Qwen3Streaming(previous, text, delta) ==
            if before == "" && after == "" then None else Some(Message(NonEmpty(before), NonEmpty(after)))
  {
    hide Find, NonEmpty;
    SplitsAtTag(before, END_THINK, after);
  }

  lemma Qwen3AtToolCall(previous: seq<Token>, text: string, delta: seq<Token>, before: string, after: string)
    requires EndThink !in delta && ToolCall in delta && Think !in delta
    requires text == before + (TOOL_CALL + after) && Find(text, TOOL_CALL, 0) == |before|
    ensures Qwen3Streaming(previous, text, delta) == Some(Message(NonEmpty(before), NonEmpty(TOOL_CALL + after)))
  {
    hide Find, NonEmpty;
    SplitsAtTag(before, TOOL_CALL, after);
  }

  /** The delta with the first marker is split at it. */
  lemma StreamingAtMarker(kind: Kind, previous: seq<Token>, delta: seq<Token>)
    requires HasMarker(kind, delta) && !HasMarker(kind, previous) && Think !in delta
    requires !ToolCallBeforeEnd(kind, delta)
    requires var n := FirstMarker(kind, delta);
             Find(TextOfAll(delta), TextOf(delta[n]), 0) == |TextOfAll(delta[..n])|
    ensures var m := Streaming(kind, previous, TextOfAll(delta), delta);
            ReasoningOf(m) == SplitReasoning(kind, delta) && ContentOf(m) == SplitContent(kind, delta)
  {
    hide Find, FirstMarker, FirstOf, TextOfAll, NonEmpty, OrEmpty, DeepSeekStreaming, Qwen3Streaming, SplitReasoning, SplitContent;
    FirstMarkerIs(kind, delta);
    SplitFacts(kind, delta);
    var n, text := FirstMarker(kind, delta), TextOfAll(delta);
    var before, after := TextOfAll(delta[..n]), TextOfAll(delta[n + 1..]);
    TextSplits(delta, n);
    OrEmptySome(before);
    OrEmptySome(SplitContent(kind, delta));
    if |delta| == 1 {
      EmptyText();
      LoneMarker(kind, previous, delta);
    } else if kind == DeepSeekR1 {
      DeepSeekAtMarker(previous, text, delta, before, after);
    } else if delta[n] == EndThink {
      Qwen3AtMarker(previous, text, delta, before, after);
    } else {
      Qwen3AtToolCall(previous, text, delta, before, after);
    }
  }

  /** A delta that is just a marker. */
  lemma LoneMarker(kind: Kind, previous: seq<Token>, delta: seq<Token>)
    requires |delta| == 1 && IsMarker(kind, delta[0])
    requires Find(TextOfAll(delta), TextOf(delta[0]), 0) == 0
    ensures var m := Streaming(kind, previous, TextOfAll(delta), delta);
            ReasoningOf(m) == "" && ContentOf(m) == if delta[0] == EndThink then "" else TextOf(delta[0])
    ensures delta[..0] == [] && delta[1..] == []
  {
    hide Find;
    assert TextOfAll(delta) == TextOf(delta[0]) by { assert delta[1..] == []; }
  }

  lemma EmptyText()
    ensures TextOfAll([]) == ""
  {}

  /** The first marker of the delta is the first marker of the stream. */
  lemma FirstMarkerInDelta(kind: Kind, previous: seq<Token>, delta: seq<Token>, rest: seq<Token>)
    requires !HasMarker(kind, previous) && HasMarker(kind, delta)
    ensures FirstMarker(kind, previous + delta + rest) == |previous| + FirstMarker(kind, delta)
  {
    var ts, n := previous + delta + rest, FirstMarker(kind, delta);
    assert forall i | 0 <= i < |previous| :: ts[i] == previous[i] && previous[i] in previous;
    assert forall i | 0 <= i <= n && i < |delta| :: ts[|previous| + i] == delta[i];
  }

  /** Alignment of the stream gives alignment of the delta that holds its first marker. */
  lemma MarkerDeltaIsAligned(kind: Kind, previous: seq<Token>, delta: seq<Token>, rest: seq<Token>)
    requires Aligned(kind, previous + delta + rest)
    requires !HasMarker(kind, previous) && HasMarker(kind, delta)
    ensures var n := FirstMarker(kind, delta); Find(TextOfAll(delta), TextOf(delta[n]), 0) == |TextOfAll(delta[..n])|
  {
    hide Find, FirstMarker, FirstOf, TextOfAll;
    var ts, n := previous + delta + rest, FirstMarker(kind, delta);
    FirstMarkerInDelta(kind, previous, delta, rest);
    FirstMarkerIs(kind, ts);
    assert ts[|previous| + n] == delta[n] && ts[..|previous| + n] == previous + delta[..n];
    TextAppends(previous, delta[..n]);
    TextAppends(previous + delta, rest);
    TextAppends(previous, delta);
    TextSplits(delta, n);
    FindInWindow(TextOfAll(previous), TextOfAll(delta), TextOfAll(rest), TextOf(delta[n]), |TextOfAll(delta[..n])|);
  }
}
