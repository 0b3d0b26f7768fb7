/** Whole outputs of the Qwen3-Coder model: what streaming sends call by call is the list that the non-streaming
    extractor takes from the output. */
module Qwen3CoderOutput {
  import opened Text
  import opened Qwen3CoderParser

  // ---- the non-streaming extractor ----

  /** `$` matches at the end and before a final newline. */
  function TailEnd(text: string, from: nat): (e: nat)
    requires from <= |text|
    ensures from <= e <= |text|
  {
    if from < |text| && text[|text| - 1] == '\n' then |text| - 1 else |text|
  }

  /** `findall` of `<tool_call>(.*?)</tool_call>|<tool_call>(.*?)$`. */
  function ToolCaptures(text: string, pos: nat): seq<string>
    decreases |text| - pos
  {
    var start := Find(text, CALL, pos);
    if start == -1 then []
    else
      var from := start + |CALL|;
      var end := Find(text, CALL_END, from);
      if end == -1 then [text[from..TailEnd(text, from)]] else [text[from..end]] + ToolCaptures(text, end + |CALL_END|)
  }

  /** `findall` of `<function=(.*?)</function>|<function=(.*)$`. */
  function FunctionCaptures(call: string, pos: nat): seq<string>
    decreases |call| - pos
  {
    var f := Find(call, FUNCTION, pos);
    if f == -1 then []
    else
      var from := f + |FUNCTION|;
      var end := Find(call, FUNCTION_END, from);
      if end == -1 then [call[from..]] else [call[from..end]] + FunctionCaptures(call, end + |FUNCTION_END|)
  }

  function FunctionsIn(calls: seq<string>): seq<string> {
    if calls == [] then [] else FunctionCaptures(calls[0], 0) + FunctionsIn(calls[1..])
  }

  /** `_get_function_calls`: without a tool-call tag the whole output is searched. */
  function FunctionCalls(text: string): seq<string> {
    FunctionsIn(if ToolCaptures(text, 0) == [] then [text] else ToolCaptures(text, 0))
  }

  // ---- outputs with calls side by side ----

  /** From `pos` on, every start tag is followed by an end tag before the next start tag, and there are no other end
      tags. */
  ghost predicate SideBySide(text: string, pos: nat)
    decreases |text| - pos
  {
    var start := Find(text, CALL, pos);
    if start == -1 then Find(text, CALL_END, pos) == -1
    else
      var end := Find(text, CALL_END, pos);
      && start + |CALL| <= end
      && (Find(text, CALL, start + |CALL|) == -1 || end + |CALL_END| <= Find(text, CALL, start + |CALL|))
      && SideBySide(text, end + |CALL_END|)
  }

  /** What stands between the tags of a tool call. */
  function Inner(tool: string): string {
    if |tool| < |CALL| + |CALL_END| then "" else tool[|CALL|..|tool| - |CALL_END|]
  }

  /** The tool call whose start tag is at `start`. */
  function ToolAt(text: string, start: nat): string
    requires start <= |text|
  {
    var end := Find(text, CALL_END, start);
    if end == -1 then text[start..] else text[start..end + |CALL_END|]
  }

  /** The tags are where a tool call has them. */
  ghost predicate Tagged(tool: string) {
    && OccursAt(tool, CALL, 0) && Find(tool, CALL_END, 0) != -1
    && |CALL| <= Find(tool, CALL_END, 0) && Find(tool, CALL_END, 0) + |CALL_END| == |tool|
  }

  lemma ToolIsTagged(text: string, start: nat, end: nat)
    requires OccursAt(text, CALL, start) && Find(text, CALL_END, start) == end && start + |CALL| <= end
    ensures ToolAt(text, start) == text[start..end + |CALL_END|] && Tagged(ToolAt(text, start))
    ensures Inner(ToolAt(text, start)) == text[start + |CALL|..end]
  {
    hide Find;
    FindFits(text, CALL_END, start);
    var tool := text[start..end + |CALL_END|];
    FindInSlice(text, CALL_END, start, end + |CALL_END|, start);
    assert tool[..|CALL|] == text[start..start + |CALL|];
  }

  lemma SideFacts(text: string, pos: nat)
    requires SideBySide(text, pos) && Find(text, CALL, pos) != -1
    ensures var start, end := Find(text, CALL, pos), Find(text, CALL_END, pos);
            && start + |CALL| <= end && SideBySide(text, end + |CALL_END|)
            && (Find(text, CALL, start + |CALL|) == -1 || end + |CALL_END| <= Find(text, CALL, start + |CALL|))
  {
    hide Find;
  }

  lemma CaptureUnfold(text: string, pos: nat)
    requires Find(text, CALL, pos) != -1 && Find(text, CALL_END, Find(text, CALL, pos) + |CALL|) != -1
    ensures var from := Find(text, CALL, pos) + |CALL|; var end := Find(text, CALL_END, from);
            ToolCaptures(text, pos) == [text[from..end]] + ToolCaptures(text, end + |CALL_END|)
  {
    hide Find;
  }

  /** The first call, and the rest behind its end tag. */
  lemma FirstCall(text: string, pos: nat)
    requires SideBySide(text, pos) && Find(text, CALL, pos) != -1
    ensures var start := Find(text, CALL, pos); var next := Find(text, CALL_END, pos) + |CALL_END|;
            && start <= |text| && pos < next <= |text| && SideBySide(text, next)
            && Tagged(ToolAt(text, start)) && ToolCaptures(text, pos) == [Inner(ToolAt(text, start))] + ToolCaptures(text, next)
            && Starts(text, CALL, pos) == [start as nat] + Starts(text, CALL, next)
            && |Starts(text, CALL_END, pos)| == 1 + |Starts(text, CALL_END, next)|
  {
    hide Find, OccursAt, Tagged, ToolAt, Inner, Starts, SideBySide, ToolCaptures;
    var start, end := Find(text, CALL, pos), Find(text, CALL_END, pos);
    SideFacts(text, pos);
    FindFits(text, CALL_END, pos);
    FindFromLater(text, CALL_END, pos, start);
    FindFromLater(text, CALL_END, pos, start + |CALL|);
    ToolIsTagged(text, start, end);
    CaptureUnfold(text, pos);
    StartsUnfold(text, CALL, pos);
    StartsUnfold(text, CALL_END, pos);
    StartsSkip(text, start + |CALL|, end + |CALL_END|);
  }

  /** The captures are what stands between the tags of each call. */
  lemma {:induction false} CapturesAreCalls(text: string, pos: nat)
    requires SideBySide(text, pos)
    ensures var starts := Starts(text, CALL, pos);
            && |ToolCaptures(text, pos)| == |starts| == |Starts(text, CALL_END, pos)|
            && forall i | 0 <= i < |starts| ::
                 starts[i] <= |text| && Tagged(ToolAt(text, starts[i])) && ToolCaptures(text, pos)[i] == Inner(ToolAt(text, starts[i]))
    decreases |text| - pos
  {
    hide Find, OccursAt, Tagged, ToolAt, Inner, ToolCaptures, SideBySide, Starts;
    if Find(text, CALL, pos) == -1 {
      NoCalls(text, pos);
    } else {
      FirstCall(text, pos);
      var next := Find(text, CALL_END, pos) + |CALL_END|;
      CapturesAreCalls(text, next);
      forall i | 0 < i < |Starts(text, CALL, pos)|
        ensures Starts(text, CALL, pos)[i] == Starts(text, CALL, next)[i - 1] && ToolCaptures(text, pos)[i] == ToolCaptures(text, next)[i - 1]
      {}
    }
  }

  lemma NoCalls(text: string, pos: nat)
    requires SideBySide(text, pos) && Find(text, CALL, pos) == -1
    ensures Starts(text, CALL, pos) == [] && Starts(text, CALL_END, pos) == [] && ToolCaptures(text, pos) == []
  {
    hide Find;
  }

  lemma StartsSkip(text: string, lo: nat, from: nat)
    requires lo <= from && (Find(text, CALL, lo) == -1 || from <= Find(text, CALL, lo))
    ensures Starts(text, CALL, from) == Starts(text, CALL, lo)
  {
    hide Find;
    FindFromLater(text, CALL, lo, from);
    StartsUnfold(text, CALL, lo);
    StartsUnfold(text, CALL, from);
  }

  // ---- one function per call ----

  /** No second function in the call. */
  ghost predicate OneFunction(tool: string) {
    Find(tool, FUNCTION, 0) != -1
    && Find(tool, FUNCTION_END, Find(tool, FUNCTION, 0) + |FUNCTION|) != -1
    && Find(tool, FUNCTION, Find(tool, FUNCTION_END, Find(tool, FUNCTION, 0) + |FUNCTION|) + |FUNCTION_END|) == -1
  }

  lemma CharsAt(text: string, pat: string, i: nat)
    requires OccursAt(text, pat, i)
    ensures i + |pat| <= |text| && forall k | i <= k < i + |pat| :: text[k] == pat[k - i]
  {
    forall k | i <= k < i + |pat| ensures text[k] == pat[k - i] { assert text[i..i + |pat|][k - i] == text[k]; }
  }

  /** Two tags of which only the first character is '<' do not overlap. */
  lemma TagsApart(text: string, a: string, b: string, i: nat, j: nat)
    requires OccursAt(text, a, i) && OccursAt(text, b, j) && i < j
    requires b != "" && b[0] == '<' && forall k | 0 < k < |a| :: a[k] != '<'
    ensures i + |a| <= j
  {
    hide OccursAt;
    CharsAt(text, a, i);
    CharsAt(text, b, j);
    assert text[j] == '<';
  }

  lemma DifferentTags(text: string, a: string, b: string, i: nat, k: nat)
    requires OccursAt(text, a, i) && k < |a| && k < |b| && a[k] != b[k]
    ensures !OccursAt(text, b, i)
  {
    hide OccursAt;
    CharsAt(text, a, i);
    assert text[i + k] == a[k];
    if OccursAt(text, b, i) { CharsAt(text, b, i); }
  }

  /** The function of a call lies between its tags. */
  lemma FunctionInside(tool: string)
    requires Tagged(tool) && OneFunction(tool)
    ensures var f := Find(tool, FUNCTION, 0); var end := Find(tool, FUNCTION_END, f + |FUNCTION|);
            |CALL| <= f && end + |FUNCTION_END| <= |tool| - |CALL_END|
  {
    hide Find, OccursAt;
    var f := Find(tool, FUNCTION, 0);
    var end := Find(tool, FUNCTION_END, f + |FUNCTION|);
    var close := Find(tool, CALL_END, 0);
    DifferentTags(tool, CALL, FUNCTION, 0, 1);
    TagsApart(tool, CALL, FUNCTION, 0, f);
    DifferentTags(tool, FUNCTION_END, CALL_END, end, 2);
    FindFits(tool, FUNCTION_END, f + |FUNCTION|);
    if end < close { TagsApart(tool, FUNCTION_END, CALL_END, end, close); } else { TagsApart(tool, CALL_END, FUNCTION_END, close, end); }
  }

  lemma OneFunctionIsFound(tool: string)
    requires Tagged(tool) && OneFunction(tool)
    ensures FunctionContent(tool) != None && FunctionCaptures(Inner(tool), 0) == [FunctionContent(tool).value]
  {
    hide Find, OccursAt, FunctionCaptures;
    FunctionInside(tool);
    var lo, hi, inner := |CALL|, |tool| - |CALL_END|, Inner(tool);
    var f := Find(tool, FUNCTION, 0);
    var end := Find(tool, FUNCTION_END, f + |FUNCTION|);
    FindFromLater(tool, FUNCTION, 0, lo);
    FindInSlice(tool, FUNCTION, lo, hi, lo);
    FindInSlice(tool, FUNCTION_END, lo, hi, f + |FUNCTION|);
    FindInSlice(tool, FUNCTION, lo, hi, end + |FUNCTION_END|);
    SliceOfSlice(tool, lo, hi, f + |FUNCTION|, end);
    LoneFunction(inner, f - lo, end - lo);
  }

  lemma LoneFunction(call: string, f: nat, end: nat)
    requires Find(call, FUNCTION, 0) == f && Find(call, FUNCTION_END, f + |FUNCTION|) == end
    requires Find(call, FUNCTION, end + |FUNCTION_END|) == -1
    ensures f + |FUNCTION| <= end <= |call| && FunctionCaptures(call, 0) == [call[f + |FUNCTION|..end]]
  {
    hide Find;
    FindFits(call, FUNCTION_END, f + |FUNCTION|);
    NoMoreFunctions(call, end + |FUNCTION_END|);
  }

  lemma NoMoreFunctions(call: string, pos: nat)
    requires Find(call, FUNCTION, pos) == -1
    ensures FunctionCaptures(call, pos) == []
  {
    hide Find;
  }

  lemma {:induction false} OneFunctionEach(calls: seq<string>, contents: seq<string>)
    requires |calls| == |contents| && forall i | 0 <= i < |calls| :: FunctionCaptures(calls[i], 0) == [contents[i]]
    ensures FunctionsIn(calls) == contents
  {
    hide FunctionCaptures;
    if calls != [] { OneFunctionEach(calls[1..], contents[1..]); }
  }

  // ---- agreement ----

  /** A call whose arguments both parsers read alike. */
  ghost predicate GoodCall(json: Json, tool: string) {
    OneFunction(tool) && WellFormed(tool) && Distinct(Params(tool)) && PlainNames(json, Params(tool))
  }

  ghost predicate GoodOutput(json: Json, text: string) {
    SideBySide(text, 0) && forall i | 0 <= i < |Starts(text, CALL, 0)| :: GoodCall(json, ToolText(text, i))
  }

  /** The closing brace of every call has been sent. */
  ghost predicate AllClosed(s: State, text: string) {
    |Starts(text, CALL, 0)| <= s.index || (|Starts(text, CALL, 0)| == s.index + 1 && s.jsonClosed)
  }

  lemma ToolTextIsToolAt(text: string, i: nat)
    requires i < |Starts(text, CALL, 0)|
    ensures Starts(text, CALL, 0)[i] <= |text| && ToolText(text, i) == ToolAt(text, Starts(text, CALL, 0)[i])
  {
    hide Starts, Find;
  }

  /** The functions of an output are those of its calls, in order. */
  lemma OutputFunctions(json: Json, text: string)
    requires GoodOutput(json, text) && Find(text, CALL, 0) != -1
    ensures var n := |Starts(text, CALL, 0)|;
            && |FunctionCalls(text)| == n
            && forall i | 0 <= i < n :: FunctionContent(ToolText(text, i)) == Some(FunctionCalls(text)[i])
  {
    hide Starts, Find, ToolText, Tagged, OneFunction, WellFormed, Params, FunctionCaptures, FunctionContent, ToolAt, Inner, ToolCaptures, FunctionsIn, SideBySide;
    CapturesAreCalls(text, 0);
    StartsUnfold(text, CALL, 0);
    var n, captures := |Starts(text, CALL, 0)|, ToolCaptures(text, 0);
    forall i | 0 <= i < n
      ensures FunctionContent(ToolText(text, i)) != None
      ensures FunctionCaptures(captures[i], 0) == [FunctionContent(ToolText(text, i)).value]
    {
      ToolTextIsToolAt(text, i);
      assert GoodCall(json, ToolText(text, i));
      OneFunctionIsFound(ToolText(text, i));
    }
    OneFunctionEach(captures, seq(n, i requires 0 <= i < n => FunctionContent(ToolText(text, i)).value));
  }

  /** For an output of well-formed calls side by side, cut in any way: once all are closed, the client has been sent
      exactly the calls that the non-streaming extractor returns, name by name and argument text by argument text. */
  lemma StreamedOutputIsExtracted(json: Json, ds: seq<Delta>)
    requires GoodOutput(json, TextOf(ds)) && Find(TextOf(ds), CALL, 0) != -1
    requires AllClosed(Run(json, INITIAL, "", ds, []).0, TextOf(ds))
    ensures var log := Run(json, INITIAL, "", ds, []).1; var calls := FunctionCalls(TextOf(ds));
            forall i | 0 <= i < |calls| ::
              |HeadersFor(log, i)| == 1 && ParseFunction(json, calls[i]) == Some((HeadersFor(log, i)[0], ArgsFor(log, i)))
    ensures var log := Run(json, INITIAL, "", ds, []).1;
            forall i | |FunctionCalls(TextOf(ds))| <= i :: HeadersFor(log, i) == [] && ArgsFor(log, i) == ""
  {
    hide Run, Starts, Find, ToolText, OneFunction, WellFormed, Params, Distinct, PlainNames, FunctionCalls, FunctionContent, ParseFunction, HeadersFor, ArgsFor,
         CallOk, SideBySide;
    var text := TextOf(ds);
    var (s, log) := Run(json, INITIAL, "", ds, []);
    OutputFunctions(json, text);
    forall i | 0 <= i < |FunctionCalls(text)|
      ensures |HeadersFor(log, i)| == 1 && ParseFunction(json, FunctionCalls(text)[i]) == Some((HeadersFor(log, i)[0], ArgsFor(log, i)))
    {
      assert GoodCall(json, ToolText(text, i));
      StreamedEqualsParsed(json, ds, i);
    }
    ProtocolHolds(json, ds);
  }

  /** An empty delta with token ids then gets the empty message, and changes nothing. */
  lemma EndMessageIsSent(json: Json, ds: seq<Delta>, startId: bool)
    requires GoodOutput(json, TextOf(ds)) && Find(TextOf(ds), CALL, 0) != -1
    requires AllClosed(Run(json, INITIAL, "", ds, []).0, TextOf(ds))
    ensures var s := Run(json, INITIAL, "", ds, []).0;
            Step(json, s, TextOf(ds), Delta("", startId, true)) == (s, Content(""))
  {
    hide Run, Starts, Find, ToolText, GoodCall, CallOk, SideBySide, ToolCaptures, Tagged, ToolAt, Inner;
    var text := TextOf(ds);
    var s := Run(json, INITIAL, "", ds, []).0;
    ProtocolHolds(json, ds);
    CapturesAreCalls(text, 0);
    StartsUnfold(text, CALL, 0);
    StreamedEqualsParsed(json, ds, 0);
    FirstIsComplete(text);
    FindFits(text, CALL, 0);
    assert text + "" == text;
  }

  lemma FirstIsComplete(text: string)
    requires SideBySide(text, 0) && Find(text, CALL, 0) != -1
    ensures HasCompleteCall(text)
  {
    hide Find;
    FindFromLater(text, CALL_END, 0, Find(text, CALL, 0) + |CALL|);
  }
}
