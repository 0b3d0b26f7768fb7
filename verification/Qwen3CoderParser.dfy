/** The Qwen3-Coder tool parser: `<function=name><parameter=key>value</parameter>...</function>` inside
    `<tool_call>` tags, streamed as one JSON object per call. */
module Qwen3CoderParser {
  import opened Text

  const CALL := "<tool_call>"
  const CALL_END := "</tool_call>"
  const FUNCTION := "<function="
  const FUNCTION_END := "</function>"
  const PARAMETER := "<parameter="
  const PARAMETER_END := "</parameter>"

  /** A parameter as it stands in the text, before its value is converted. */
  datatype Pair = Pair(name: string, value: string)

  /** The JSON encoder: how a key and how the value of a parameter of a function are written. */
  datatype Json = Json(key: string -> string, value: (string, Pair) -> string)

  /** All occurrences that the scanning loops find. */
  function Starts(text: string, pat: string, from: nat): (r: seq<nat>)
    requires 0 < |pat|
    ensures forall i | 0 <= i < |r| :: from <= r[i] && OccursAt(text, pat, r[i])
    decreases |text| - from
  {
    var at := Find(text, pat, from);
    if at == -1 then [] else [at as nat] + Starts(text, pat, at + |pat|)
  }

  lemma {:induction false} StartsGrow(p: string, q: string, pat: string, from: nat)
    requires p <= q && 0 < |pat|
    ensures Starts(p, pat, from) <= Starts(q, pat, from)
    decreases |p| - from
  {
    hide Find;
    FindInExtension(p, q, pat, from);
    var at := Find(p, pat, from);
    if at != -1 {
      OccursInExtension(p, q, pat, at);
      StartsGrow(p, q, pat, at + |pat|);
    }
  }

  lemma StartsUnfold(text: string, pat: string, from: nat)
    requires 0 < |pat|
    ensures var at := Find(text, pat, from);
            Starts(text, pat, from) == if at == -1 then [] else [at as nat] + Starts(text, pat, at + |pat|)
  {
    hide Find;
  }

  /** The text of tool call `i`, from its start tag to its end tag or the end of the text. */
  function ToolText(text: string, i: nat): string
    requires i < |Starts(text, CALL, 0)|
  {
    var start := Starts(text, CALL, 0)[i];
    var end := Find(text, CALL_END, start);
    if end == -1 then text[start..] else text[start..end + |CALL_END|]
  }

  lemma ToolTextGrows(p: string, q: string, i: nat)
    requires p <= q && i < |Starts(p, CALL, 0)|
    ensures i < |Starts(q, CALL, 0)| && ToolText(p, i) <= ToolText(q, i)
  {
    hide Find, Starts;
    StartsGrow(p, q, CALL, 0);
    var start := Starts(p, CALL, 0)[i];
    FindInExtension(p, q, CALL_END, start);
    var end := Find(q, CALL_END, start);
    if Find(p, CALL_END, start) != -1 {
      assert p[start..end + |CALL_END|] == q[start..end + |CALL_END|];
    } else if end != -1 {
      assert end + |CALL_END| > |p|;
      assert p[start..] == q[start..end + |CALL_END|][..|p| - start];
    } else {
      assert p[start..] == q[start..][..|p| - start];
    }
  }

  // ---- one parameter ----

  function DropNewline(s: string): string {
    if s != "" && s[|s| - 1] == '\n' then s[..|s| - 1] else s
  }

  /** Where the value of a parameter starts: after `>` and one newline. */
  function ValueStart(tool: string, gt: nat): nat {
    if gt + 1 < |tool| && tool[gt + 1] == '\n' then gt + 2 else gt + 1
  }

  /** Where the value ends: at its end tag, else at the next tag that cannot belong to it; -1 when the
      parameter is not complete yet. */
  function ValueEnd(tool: string, from: nat): (e: int)
    ensures e == -1 || from <= e <= |tool|
  {
    var close := Find(tool, PARAMETER_END, from);
    var next := Find(tool, PARAMETER, from);
    var end := Find(tool, FUNCTION_END, from);
    if close != -1 then close
    else if next != -1 && (end == -1 || next < end) then next
    else if end != -1 then end
    else Find(tool, CALL_END, from)
  }

  /** The parameter whose tag starts at `start`, if it is complete in this text. */
  function ParamAt(tool: string, start: nat): Option<Pair> {
    var gt := Find(tool, ">", start + |PARAMETER|);
    if gt == -1 then None
    else
      var from := ValueStart(tool, gt);
      var end := ValueEnd(tool, from);
      if end == -1 then None
      else Some(Pair(tool[start + |PARAMETER|..gt], DropNewline(tool[from..end])))
  }

  /** The complete parameters from number `k` on, up to the first incomplete one. */
  function Collect(tool: string, starts: seq<nat>, k: nat): seq<Pair>
    requires k <= |starts|
    decreases |starts| - k
  {
    if k == |starts| || ParamAt(tool, starts[k]) == None then []
    else [ParamAt(tool, starts[k]).value] + Collect(tool, starts, k + 1)
  }

  // ---- rendering ----

  function Item(json: Json, func: string, p: Pair): string {
    "\"" + p.name + "\": " + json.value(func, p)
  }

  /** The fragments of the parameters, the first of which is number `k` of its call. */
  function Render(json: Json, func: string, ps: seq<Pair>, k: nat): string {
    if ps == [] then ""
    else (if k == 0 then "" else ", ") + Item(json, func, ps[0]) + Render(json, func, ps[1..], k + 1)
  }

  lemma {:induction false} RenderAppends(json: Json, func: string, a: seq<Pair>, b: seq<Pair>, k: nat)
    ensures Render(json, func, a + b, k) == Render(json, func, a, k) + Render(json, func, b, k + |a|)
  {
    hide Item;
    if a == [] {
      assert a + b == b;
    } else {
      assert (a + b)[1..] == a[1..] + b;
      RenderAppends(json, func, a[1..], b, k + 1);
    }
  }

  // ---- the non-streaming parser ----

  /** The end of `.*?` in the parameter pattern: the first end tag, parameter, function end, or end of text
      (also before a final newline, as `$` does). */
  function MatchEnd(text: string, from: nat): (e: nat)
    requires from <= |text|
    ensures from <= e <= |text|
    decreases |text| - from
  {
    if from == |text| || OccursAt(text, PARAMETER_END, from) || OccursAt(text, PARAMETER, from)
       || OccursAt(text, FUNCTION_END, from) || (from + 1 == |text| && text[from] == '\n') then from
    else MatchEnd(text, from + 1)
  }

  /** `findall` of the parameter pattern. */
  function Matches(text: string, pos: nat): seq<string>
    decreases |text| - pos
  {
    var at := Find(text, PARAMETER, pos);
    if at == -1 then []
    else
      var end := MatchEnd(text, at + |PARAMETER|);
      var next := if OccursAt(text, PARAMETER_END, end) then end + |PARAMETER_END| else end;
      [text[at + |PARAMETER|..end]] + Matches(text, next)
  }

  /** Name and value of one match; None stands for the ValueError of a match without `>`. */
  function ParsePair(m: string): Option<Pair> {
    var gt := Find(m, ">", 0);
    if gt == -1 then None
    else
      var value := m[gt + 1..];
      var body := if value != "" && value[0] == '\n' then value[1..] else value;
      Some(Pair(m[..gt], DropNewline(body)))
  }

  function ParsePairs(ms: seq<string>): Option<seq<Pair>> {
    if ms == [] then Some([])
    else
      match (ParsePair(ms[0]), ParsePairs(ms[1..]))
      case (Some(p), Some(ps)) => Some([p] + ps)
      case _ => None
  }

  /** Assignment to a dictionary that keeps the order of insertion. */
  function Insert(d: seq<Pair>, p: Pair): seq<Pair> {
    if d == [] then [p]
    else if d[0].name == p.name then [p] + d[1..]
    else [d[0]] + Insert(d[1..], p)
  }

  function DictOf(ps: seq<Pair>): seq<Pair> {
    if ps == [] then [] else Insert(DictOf(ps[..|ps| - 1]), ps[|ps| - 1])
  }

  function DumpItems(json: Json, func: string, d: seq<Pair>, k: nat): string {
    if d == [] then ""
    else (if k == 0 then "" else ", ") + json.key(d[0].name) + ": " + json.value(func, d[0]) + DumpItems(json, func, d[1..], k + 1)
  }

  /** `_parse_xml_function_call`: the name and the arguments as JSON text. */
  function ParseFunction(json: Json, content: string): Option<(string, string)> {
    var gt := Find(content, ">", 0);
    if gt == -1 then None
    else
      match ParsePairs(Matches(content[gt + 1..], 0))
      case None => None
      case Some(ps) => Some((content[..gt], "{" + DumpItems(json, content[..gt], DictOf(ps), 0) + "}"))
  }

  /** What lies between `<function=` and `</function>` in a tool call, when both are there. */
  function FunctionContent(tool: string): Option<string> {
    var f := Find(tool, FUNCTION, 0);
    if f == -1 then None
    else
      var end := Find(tool, FUNCTION_END, f + |FUNCTION|);
      if end == -1 then None else Some(tool[f + |FUNCTION|..end])
  }

  /** The arguments the streaming parser keeps when a function closes: parsed, or "{}" as they were. */
  function KeptArguments(json: Json, tool: string): string {
    var parsed := if FunctionContent(tool) == None then None else ParseFunction(json, FunctionContent(tool).value);
    if parsed == None then "{}" else parsed.value.1
  }

  // ---- the streaming parser ----

  /** What is kept for one tool call: its name, the argument text sent, the parameters in it, and the
      arguments read off the finished function. */
  datatype Call = Call(name: string, streamed: string, params: seq<Pair>, arguments: string)

  datatype State = State(
    index: nat, started: bool, headerSent: bool, paramCount: nat,
    inFunction: bool, jsonStarted: bool, jsonClosed: bool, calls: seq<Call>)

  const INITIAL := State(0, false, false, 0, false, false, false, [])

  /** At most one message comes out of a delta. */
  datatype Event = Nothing | Content(text: string) | Header(index: nat, name: string) | Args(index: nat, fragment: string)

  /** One call of the streaming entry point. `startId`: the id of the start tag is among the new token ids; `otherIds`:
      there are new token ids and that of the end tag is not among them. */
  datatype Delta = Delta(text: string, startId: bool, otherIds: bool)

  function Reset(s: State): State {
    State(0, false, false, 0, false, false, false, s.calls)
  }

  /** Leaves a closed call once its end tag has come. */
  function NextTool(s: State, current: string): State {
    State(s.index + 1, s.started && s.index + 1 < |Starts(current, CALL, 0)|, false, 0, s.inFunction, false, false, s.calls)
  }

  function BeforeTools(s: State, current: string, d: Delta): (State, Event) {
    var at := Find(d.text, CALL, 0);
    if d.startId || at != -1 then
      (s.(started := true), if at > 0 then Content(d.text[..at]) else Nothing)
    else if EndsWith(RStrip(current), CALL_END) && Strip(d.text) == "" then (s, Nothing)
    else (s, Content(d.text))
  }

  /** The pattern of a complete call matches somewhere. */
  predicate HasCompleteCall(text: string) {
    var at := Find(text, CALL, 0);
    at != -1 && Find(text, CALL_END, at + |CALL|) != -1
  }

  /** A delta with token ids and no text: an empty message if every call is closed, or if no call has begun. */
  function AtEndOfStream(s: State, current: string, d: Delta): Event {
    if !d.otherIds then Nothing
    else if HasCompleteCall(current) && s.calls != [] then
      if |Starts(current, CALL, 0)| == |Starts(current, CALL_END, 0)| then Content("") else Nothing
    else if !s.started && current != "" then Content("")
    else Nothing
  }

  predicate EndsWith(s: string, tail: string) {
    |tail| <= |s| && s[|s| - |tail|..] == tail
  }

  function SendHeader(s: State, tool: string): (State, Event) {
    var f := Find(tool, FUNCTION, 0);
    if f == -1 then (s, Nothing)
    else
      var gt := Find(tool, ">", f + |FUNCTION|);
      if gt == -1 then (s, Nothing)
      else
        var name := tool[f + |FUNCTION|..gt];
        (s.(headerSent := true, inFunction := true, calls := s.calls + [Call(name, "", [], "{}")]), Header(s.index, name))
  }

  /** Appends to what was streamed for the current call, if it is in range. */
  function AddArgs(s: State, fragment: string, params: seq<Pair>): State {
    if s.index >= |s.calls| then s
    else
      var call := s.calls[s.index];
      s.(calls := s.calls[s.index := Call(call.name, call.streamed + fragment, call.params + params, call.arguments)])
  }

  function CloseFunction(json: Json, s: State, tool: string): State {
    var s1 := s.(jsonClosed := true, inFunction := false);
    if s.index >= |s.calls| then s1
    else
      var call := s.calls[s.index];
      s1.(calls := s.calls[s.index := Call(call.name, call.streamed + "}", call.params, KeptArguments(json, tool))])
  }

  function FunctionName(s: State): string {
    if s.index < |s.calls| then s.calls[s.index].name else ""
  }

  function InBody(json: Json, s: State, tool: string): (State, Event) {
    if !s.jsonStarted then (AddArgs(s, "{", []).(jsonStarted := true), Args(s.index, "{"))
    else
      var starts := Starts(tool, PARAMETER, 0);
      var ready := if s.paramCount <= |starts| then Collect(tool, starts, s.paramCount) else [];
      if ready != [] then
        var fragment := Render(json, FunctionName(s), ready, s.paramCount);
        (AddArgs(s, fragment, ready).(paramCount := s.paramCount + |ready|), Args(s.index, fragment))
      else if !s.jsonClosed && Find(tool, FUNCTION_END, 0) != -1 then
        (CloseFunction(json, s, tool), Args(s.index, "}"))
      else (s, Nothing)
  }

  /** `extract_tool_calls_streaming`. */
  function Step(json: Json, s: State, previous: string, d: Delta): (State, Event) {
    var current := previous + d.text;
    var s0 := if previous == "" then Reset(s) else s;
    if d.text == "" then (s0, AtEndOfStream(s0, current, d))
    else if s0.jsonClosed && !s0.inFunction && |Starts(current, CALL_END, 0)| > s0.index then (NextTool(s0, current), Nothing)
    else if !s0.started then BeforeTools(s0, current, d)
    else if s0.index >= |Starts(current, CALL, 0)| then (s0, Nothing)
    else
      var tool := ToolText(current, s0.index);
      if !s0.headerSent then SendHeader(s0, tool)
      else if s0.inFunction then InBody(json, s0, tool)
      else (s0, Nothing)
  }

  // ---- what the client sees ----

  function ArgsFor(log: seq<Event>, i: nat): string {
    if log == [] then ""
    else
      var e := log[|log| - 1];
      ArgsFor(log[..|log| - 1], i) + (if e.Args? && e.index == i then e.fragment else "")
  }

  function HeadersFor(log: seq<Event>, i: nat): seq<string> {
    if log == [] then []
    else
      var e := log[|log| - 1];
      HeadersFor(log[..|log| - 1], i) + (if e.Header? && e.index == i then [e.name] else [])
  }

  lemma LogAppends(log: seq<Event>, e: Event, i: nat)
    ensures ArgsFor(log + [e], i) == ArgsFor(log, i) + (if e.Args? && e.index == i then e.fragment else "")
    ensures HeadersFor(log + [e], i) == HeadersFor(log, i) + (if e.Header? && e.index == i then [e.name] else [])
  {
    assert (log + [e])[..|log|] == log;
  }

  /** The name in the function tag, once it is complete. */
  function HeaderName(tool: string): Option<string> {
    var f := Find(tool, FUNCTION, 0);
    if f == -1 then None
    else
      var gt := Find(tool, ">", f + |FUNCTION|);
      if gt == -1 then None else Some(tool[f + |FUNCTION|..gt])
  }

  lemma HeaderNameStable(p: string, q: string)
    requires p <= q && HeaderName(p) != None
    ensures HeaderName(q) == HeaderName(p)
  {
    hide Find;
    FindInExtension(p, q, FUNCTION, 0);
    var f := Find(p, FUNCTION, 0);
    FindInExtension(p, q, ">", f + |FUNCTION|);
    var gt := Find(p, ">", f + |FUNCTION|);
    assert p[f + |FUNCTION|..gt] == q[f + |FUNCTION|..gt];
  }

  /** Parameter `k` was read as `x` when the tool call had got as far as `p`. */
  ghost predicate ReadIn(p: string, tool: string, k: nat, x: Pair) {
    p <= tool && k < |Starts(p, PARAMETER, 0)| && ParamAt(p, Starts(p, PARAMETER, 0)[k]) == Some(x)
  }

  ghost predicate WasRead(tool: string, k: nat, x: Pair) {
    exists p :: ReadIn(p, tool, k, x)
  }

  /** At `p` the function end was there and no parameter from number `n` on could be read. */
  ghost predicate ExhaustedIn(p: string, tool: string, n: nat) {
    && p <= tool && Find(p, FUNCTION_END, 0) != -1 && n <= |Starts(p, PARAMETER, 0)|
    && Collect(p, Starts(p, PARAMETER, 0), n) == []
  }

  ghost predicate Exhausted(tool: string, n: nat, json: Json, arguments: string) {
    exists p :: ExhaustedIn(p, tool, n) && arguments == KeptArguments(json, p)
  }

  /** What was sent for a call: a brace, comma-joined parameters each read from the text, and a brace once
      the function had ended and nothing was left to read. */
  ghost predicate CallOk(json: Json, c: Call, tool: string, begun: bool, closed: bool) {
    && HeaderName(tool) == Some(c.name)
    && (forall k | 0 <= k < |c.params| :: WasRead(tool, k, c.params[k]))
    && c.streamed == (if begun then "{" else "") + Render(json, c.name, c.params, 0) + (if closed then "}" else "")
    && (!begun ==> c.params == [])
    && (closed ==> begun && Exhausted(tool, |c.params|, json, c.arguments))
  }

  lemma CallGrows(json: Json, c: Call, p: string, q: string, begun: bool, closed: bool)
    requires p <= q && CallOk(json, c, p, begun, closed)
    ensures CallOk(json, c, q, begun, closed)
  {
    hide HeaderName, Starts, ParamAt, Collect, Render, KeptArguments, Find;
    HeaderNameStable(p, q);
    forall k | 0 <= k < |c.params| ensures WasRead(q, k, c.params[k]) {
      assert WasRead(p, k, c.params[k]);
      var r :| ReadIn(r, p, k, c.params[k]);
      assert ReadIn(r, q, k, c.params[k]);
    }
    if closed {
      var r :| ExhaustedIn(r, p, |c.params|) && c.arguments == KeptArguments(json, r);
      assert ExhaustedIn(r, q, |c.params|);
    }
  }

  ghost predicate Flags(s: State) {
    && |s.calls| == s.index + (if s.headerSent then 1 else 0)
    && (s.inFunction <==> s.headerSent && !s.jsonClosed)
    && (s.jsonClosed ==> s.jsonStarted) && (s.jsonStarted ==> s.headerSent)
    && (s.headerSent ==> s.paramCount == |s.calls[s.index].params|)
    && (!s.headerSent ==> s.paramCount == 0)
  }

  ghost predicate CallsOk(json: Json, s: State, text: string) {
    && |s.calls| <= |Starts(text, CALL, 0)|
    && forall i | 0 <= i < |s.calls| ::
         CallOk(json, s.calls[i], ToolText(text, i), i < s.index || s.jsonStarted, i < s.index || s.jsonClosed)
  }

  ghost predicate LogOk(s: State, log: seq<Event>) {
    forall i: nat ::
      && HeadersFor(log, i) == (if i < |s.calls| then [s.calls[i].name] else [])
      && ArgsFor(log, i) == (if i < |s.calls| then s.calls[i].streamed else "")
  }

  ghost predicate Inv(json: Json, s: State, text: string, log: seq<Event>) {
    Flags(s) && CallsOk(json, s, text) && LogOk(s, log)
  }

  lemma CallsGrow(json: Json, s: State, p: string, q: string)
    requires p <= q && Flags(s) && CallsOk(json, s, p)
    ensures CallsOk(json, s, q)
  {
    hide CallOk, Starts, ToolText;
    StartsGrow(p, q, CALL, 0);
    forall i | 0 <= i < |s.calls|
      ensures CallOk(json, s.calls[i], ToolText(q, i), i < s.index || s.jsonStarted, i < s.index || s.jsonClosed)
    {
      ToolTextGrows(p, q, i);
      CallGrows(json, s.calls[i], ToolText(p, i), ToolText(q, i), i < s.index || s.jsonStarted, i < s.index || s.jsonClosed);
    }
  }

  /** A message that belongs to no tool call changes nothing for the calls. */
  lemma QuietStep(json: Json, s: State, s': State, text: string, log: seq<Event>, e: Event)
    requires Inv(json, s, text, log) && (e.Nothing? || e.Content?) && s'.calls == s.calls
    requires s' == s.(started := s'.started) || (s.jsonClosed && s' == NextTool(s, text).(started := s'.started))
    ensures Inv(json, s', text, log + [e])
  {
    hide CallOk, Starts, ToolText, ArgsFor, HeadersFor;
    forall i: nat { LogAppends(log, e, i); }
  }

  /** With no text before it, the reset finds nothing to forget. */
  lemma ResetIsIdle(json: Json, s: State, log: seq<Event>)
    requires Inv(json, s, "", log)
    ensures s.calls == [] && Inv(json, Reset(s), "", log)
  {
    hide CallOk, ToolText, ArgsFor, HeadersFor;
    assert Starts("", CALL, 0) == [];
  }

  lemma HeaderStep(json: Json, s: State, text: string, log: seq<Event>)
    requires Inv(json, s, text, log) && !s.headerSent && s.index < |Starts(text, CALL, 0)|
    ensures var (s', e) := SendHeader(s, ToolText(text, s.index)); Inv(json, s', text, log + [e])
  {
    hide CallOk, Starts, ToolText, ArgsFor, HeadersFor, Find, Render;
    var tool := ToolText(text, s.index);
    var (s', e) := SendHeader(s, tool);
    forall i: nat { LogAppends(log, e, i); }
    if e != Nothing { FreshCall(json, s'.calls[s.index], tool); }
  }

  lemma FreshCall(json: Json, c: Call, tool: string)
    requires HeaderName(tool) == Some(c.name) && c == Call(c.name, "", [], "{}")
    ensures CallOk(json, c, tool, false, false)
  {}

  lemma {:induction false} CollectReads(tool: string, starts: seq<nat>, k: nat)
    requires k <= |starts|
    ensures k + |Collect(tool, starts, k)| <= |starts|
    ensures forall j | 0 <= j < |Collect(tool, starts, k)| :: ParamAt(tool, starts[k + j]) == Some(Collect(tool, starts, k)[j])
    decreases |starts| - k
  {
    hide ParamAt;
    if k < |starts| && ParamAt(tool, starts[k]) != None {
      CollectReads(tool, starts, k + 1);
    }
  }

  lemma CountInRange(tool: string, params: seq<Pair>)
    requires forall k | 0 <= k < |params| :: WasRead(tool, k, params[k])
    ensures |params| <= |Starts(tool, PARAMETER, 0)|
  {
    hide Starts, ParamAt;
    if params != [] {
      var k := |params| - 1;
      assert WasRead(tool, k, params[k]);
      var p :| ReadIn(p, tool, k, params[k]);
      StartsGrow(p, tool, PARAMETER, 0);
    }
  }

  lemma OpenCall(json: Json, c: Call, tool: string)
    requires CallOk(json, c, tool, false, false)
    ensures CallOk(json, Call(c.name, c.streamed + "{", c.params + [], c.arguments), tool, true, false)
  {
    hide HeaderName, WasRead;
    assert c.params + [] == [];
  }

  lemma ExtendCall(json: Json, c: Call, tool: string, ready: seq<Pair>)
    requires CallOk(json, c, tool, true, false)
    requires |c.params| <= |Starts(tool, PARAMETER, 0)| && ready == Collect(tool, Starts(tool, PARAMETER, 0), |c.params|)
    ensures var fragment := Render(json, c.name, ready, |c.params|);
            CallOk(json, Call(c.name, c.streamed + fragment, c.params + ready, c.arguments), tool, true, false)
  {
    hide HeaderName, Collect, Starts, ParamAt, Render;
    var n := |c.params|;
    CollectReads(tool, Starts(tool, PARAMETER, 0), n);
    RenderAppends(json, c.name, c.params, ready, 0);
    var all := c.params + ready;
    forall k | 0 <= k < |all| ensures WasRead(tool, k, all[k]) {
      if k >= n { assert ReadIn(tool, tool, n + (k - n), ready[k - n]); } else { assert WasRead(tool, k, c.params[k]); }
    }
    var a, b := Render(json, c.name, c.params, 0), Render(json, c.name, ready, n);
    assert "{" + a + "" + b == "{" + (a + b) + "";
  }

  lemma CloseCall(json: Json, c: Call, tool: string)
    requires CallOk(json, c, tool, true, false) && |c.params| <= |Starts(tool, PARAMETER, 0)|
    requires Collect(tool, Starts(tool, PARAMETER, 0), |c.params|) == [] && Find(tool, FUNCTION_END, 0) != -1
    ensures CallOk(json, Call(c.name, c.streamed + "}", c.params, KeptArguments(json, tool)), tool, true, true)
  {
    hide HeaderName, Collect, Starts, WasRead, Render, KeptArguments, Find;
    assert ExhaustedIn(tool, tool, |c.params|);
    var a := Render(json, c.name, c.params, 0);
    assert "{" + a + "" + "}" == "{" + a + "}";
  }

  /** Sending one fragment for the current call. */
  lemma FragmentStep(json: Json, s: State, s': State, text: string, log: seq<Event>, fragment: string)
    requires Inv(json, s, text, log) && s.headerSent && s.index < |Starts(text, CALL, 0)|
    requires Flags(s') && s'.index == s.index && s'.headerSent && s'.calls[..s.index] == s.calls[..s.index]
    requires s'.calls[s.index].name == s.calls[s.index].name
    requires s'.calls[s.index].streamed == s.calls[s.index].streamed + fragment
    requires CallOk(json, s'.calls[s.index], ToolText(text, s.index), s'.jsonStarted, s'.jsonClosed)
    ensures Inv(json, s', text, log + [Args(s.index, fragment)])
  {
    hide CallOk, ToolText, ArgsFor, HeadersFor, Starts;
    assert forall i | 0 <= i < s.index :: s'.calls[i] == s'.calls[..s.index][i] == s.calls[..s.index][i] == s.calls[i];
    forall i: nat { LogAppends(log, Args(s.index, fragment), i); }
  }

  lemma BodyFacts(json: Json, s: State, text: string, log: seq<Event>)
    requires Inv(json, s, text, log) && s.inFunction && s.index < |Starts(text, CALL, 0)|
    ensures var tool := ToolText(text, s.index);
            && Flags(s) && s.headerSent && !s.jsonClosed && s.index < |s.calls| && FunctionName(s) == s.calls[s.index].name
            && CallOk(json, s.calls[s.index], tool, s.jsonStarted, s.jsonClosed)
            && s.paramCount == |s.calls[s.index].params| <= |Starts(tool, PARAMETER, 0)|
  {
    hide CallOk, ToolText, Starts, WasRead, LogOk;
    var tool, c := ToolText(text, s.index), s.calls[s.index];
    assert CallOk(json, c, tool, s.jsonStarted, s.jsonClosed);
    CallReads(json, c, tool, s.jsonStarted, s.jsonClosed);
    CountInRange(tool, c.params);
  }

  lemma CallReads(json: Json, c: Call, tool: string, begun: bool, closed: bool)
    requires CallOk(json, c, tool, begun, closed)
    ensures forall k | 0 <= k < |c.params| :: WasRead(tool, k, c.params[k])
  {
    hide HeaderName, Render, WasRead, Exhausted;
  }

  lemma BodyStep(json: Json, s: State, text: string, log: seq<Event>)
    requires Inv(json, s, text, log) && s.inFunction && s.index < |Starts(text, CALL, 0)|
    ensures var (s', e) := InBody(json, s, ToolText(text, s.index)); Inv(json, s', text, log + [e])
  {
    hide CallOk, ToolText, Find, Render, Starts, Collect, KeptArguments, Inv, CallsOk, LogOk, FunctionName;
    BodyFacts(json, s, text, log);
    var tool, c := ToolText(text, s.index), s.calls[s.index];
    var (s', e) := InBody(json, s, tool);
    var starts := Starts(tool, PARAMETER, 0);
    if !s.jsonStarted {
      OpenCall(json, c, tool);
      FragmentStep(json, s, s', text, log, "{");
    } else if Collect(tool, starts, s.paramCount) != [] {
      var ready := Collect(tool, starts, s.paramCount);
      ExtendCall(json, c, tool, ready);
      FragmentStep(json, s, s', text, log, Render(json, c.name, ready, s.paramCount));
    } else if Find(tool, FUNCTION_END, 0) != -1 {
      CloseCall(json, c, tool);
      FragmentStep(json, s, s', text, log, "}");
    } else {
      QuietStep(json, s, s', text, log, e);
    }
  }

  /** Every delta keeps the protocol, whatever the text is. */
  lemma StepKeepsInv(json: Json, s: State, text: string, d: Delta, log: seq<Event>)
    requires Inv(json, s, text, log)
    ensures var (s', e) := Step(json, s, text, d); Inv(json, s', text + d.text, log + [e])
  {
    hide CallOk, ToolText, ArgsFor, HeadersFor, Find, Render, Starts, Collect, KeptArguments, LogOk, Strip, RStrip, EndsWith, InBody, SendHeader;
    var current := text + d.text;
    if text == "" { ResetIsIdle(json, s, log); }
    var s0 := if text == "" then Reset(s) else s;
    CallsGrow(json, s0, text, current);
    var (s', e) := Step(json, s, text, d);
    if d.text != "" && !(s0.jsonClosed && !s0.inFunction && |Starts(current, CALL_END, 0)| > s0.index)
       && s0.started && s0.index < |Starts(current, CALL, 0)| && (!s0.headerSent || s0.inFunction) {
      if !s0.headerSent { HeaderStep(json, s0, current, log); } else { BodyStep(json, s0, current, log); }
    } else {
      QuietStep(json, s0, s', current, log, e);
    }
  }

  // ---- whole streams ----

  function TextOf(ds: seq<Delta>): string {
    if ds == [] then "" else ds[0].text + TextOf(ds[1..])
  }

  function Run(json: Json, s: State, text: string, ds: seq<Delta>, log: seq<Event>): (State, seq<Event>)
    decreases |ds|
  {
    if ds == [] then (s, log)
    else
      var (s', e) := Step(json, s, text, ds[0]);
      Run(json, s', text + ds[0].text, ds[1..], log + [e])
  }

  lemma {:induction false} RunKeepsInv(json: Json, s: State, text: string, ds: seq<Delta>, log: seq<Event>)
    requires Inv(json, s, text, log)
    ensures var (s', log') := Run(json, s, text, ds, log); Inv(json, s', text + TextOf(ds), log')
    decreases |ds|
  {
    hide Inv, Step;
    if ds == [] {
      assert text + "" == text;
    } else {
      StepKeepsInv(json, s, text, ds[0], log);
      var (s', e) := Step(json, s, text, ds[0]);
      RunKeepsInv(json, s', text + ds[0].text, ds[1..], log + [e]);
      assert text + TextOf(ds) == text + ds[0].text + TextOf(ds[1..]);
    }
  }

  /** The protocol for any input and any chunking: every tool call up to the current one has one header,
      one opening brace, parameters read from the text in order and joined by commas, and one closing
      brace at most; what was emitted is what is remembered, with one entry per header. */
  lemma ProtocolHolds(json: Json, ds: seq<Delta>)
    ensures var (s, log) := Run(json, INITIAL, "", ds, []); Inv(json, s, TextOf(ds), log)
  {
    assert "" + TextOf(ds) == TextOf(ds);
    assert Inv(json, INITIAL, "", []) by { hide Starts; }
    RunKeepsInv(json, INITIAL, "", ds, []);
  }

  // ---- agreement with the non-streaming parser ----

  /** No `tag` starts in the value that runs from `from` to the end tag at `close`. */
  ghost predicate Clear(tool: string, tag: string, from: nat, close: int) {
    Find(tool, tag, from) == -1 || close + |PARAMETER_END| <= Find(tool, tag, from)
  }

  /** The parameter at `at` is closed by its own end tag before `end`, and has no tag in its value. */
  ghost predicate GoodParam(tool: string, at: nat, end: nat) {
    var from := at + |PARAMETER|;
    var gt, close := Find(tool, ">", from), Find(tool, PARAMETER_END, from);
    && -1 < gt < close && close + |PARAMETER_END| <= end
    && Clear(tool, PARAMETER, from, close) && Clear(tool, FUNCTION_END, from, close) && Clear(tool, CALL_END, from, close)
  }

  ghost predicate GoodParams(tool: string, pos: nat, end: nat)
    decreases |tool| - pos
  {
    var at := Find(tool, PARAMETER, pos);
    at == -1 || (GoodParam(tool, at, end) && GoodParams(tool, at + |PARAMETER|, end))
  }

  /** Every parameter stands between the function's name and its end and is closed, with a tag-free value. */
  ghost predicate WellFormed(tool: string) {
    var f := Find(tool, FUNCTION, 0);
    && f != -1
    && var name, end := Find(tool, ">", f + |FUNCTION|), Find(tool, FUNCTION_END, f + |FUNCTION|);
    && -1 < name < end && Find(tool, FUNCTION_END, 0) == end
    && (Find(tool, PARAMETER, 0) == -1 || name < Find(tool, PARAMETER, 0))
    && GoodParams(tool, 0, end)
  }

  /** Name and value of a good parameter. */
  function PairAt(tool: string, at: nat): Pair {
    var gt, close := Find(tool, ">", at + |PARAMETER|), Find(tool, PARAMETER_END, at + |PARAMETER|);
    if gt == -1 || close < ValueStart(tool, gt) then Pair("", "")
    else Pair(tool[at + |PARAMETER|..gt], DropNewline(tool[ValueStart(tool, gt)..close]))
  }

  function PairsAt(tool: string, starts: seq<nat>): seq<Pair> {
    seq(|starts|, i requires 0 <= i < |starts| => PairAt(tool, starts[i]))
  }

  /** The parameters of a tool call, in order. */
  function Params(tool: string): seq<Pair> {
    PairsAt(tool, Starts(tool, PARAMETER, 0))
  }

  /** A newline at the start of a value is not the start of its end tag. */
  lemma ValueStartInside(tool: string, gt: nat, close: nat)
    requires gt < close && OccursAt(tool, PARAMETER_END, close)
    ensures gt + 1 <= ValueStart(tool, gt) <= close
  {
    assert tool[close..close + |PARAMETER_END|][0] == '<';
  }

  /** What is read for a good parameter from an unfinished text is what the finished text has. */
  lemma ReadIsFinal(p: string, tool: string, at: nat, end: nat)
    requires p <= tool && GoodParam(tool, at, end)
    ensures ParamAt(p, at) != None ==> ParamAt(p, at) == Some(PairAt(tool, at))
    ensures end <= |p| ==> ParamAt(p, at) == Some(PairAt(tool, at))
  {
    hide Find, DropNewline;
    var from := at + |PARAMETER|;
    var gt, close := Find(tool, ">", from), Find(tool, PARAMETER_END, from);
    FindInExtension(p, tool, ">", from);
    ValueStartInside(tool, gt, close);
    var start := ValueStart(tool, gt);
    FindFromLater(tool, PARAMETER_END, from, start);
    FindInExtension(p, tool, PARAMETER_END, start);
    if Find(p, ">", from) != -1 && gt + 1 < |p| {
      assert ValueStart(p, gt) == start;
      assert p[from..gt] == tool[from..gt];
      if Find(p, PARAMETER_END, start) != -1 {
        assert p[start..close] == tool[start..close];
      } else {
        FindFits(p, PARAMETER_END, start);
        NothingElse(p, tool, PARAMETER, from, start, close);
        NothingElse(p, tool, FUNCTION_END, from, start, close);
        NothingElse(p, tool, CALL_END, from, start, close);
      }
    } else if Find(p, ">", from) != -1 {
      NothingAtEnd(p, gt + 1);
    }
  }

  lemma NothingElse(p: string, tool: string, tag: string, from: nat, start: nat, close: nat)
    requires p <= tool && |p| < close + |PARAMETER_END| && from <= start && Clear(tool, tag, from, close)
    ensures Find(p, tag, start) == -1
  {
    if Find(p, tag, start) != -1 {
      OccursInExtension(p, tool, tag, Find(p, tag, start));
      assert false;
    }
  }

  lemma NothingAtEnd(p: string, from: nat)
    requires |p| <= from
    ensures ValueEnd(p, from) == -1
  {}

  lemma {:induction false} StartsAreGood(tool: string, pos: nat, end: nat)
    requires GoodParams(tool, pos, end)
    ensures forall k | 0 <= k < |Starts(tool, PARAMETER, pos)| :: GoodParam(tool, Starts(tool, PARAMETER, pos)[k], end)
    decreases |tool| - pos
  {
    hide GoodParam;
    var at := Find(tool, PARAMETER, pos);
    if at != -1 { StartsAreGood(tool, at + |PARAMETER|, end); }
  }

  /** Whatever was read along the way is the parameter of the finished text with the same number. */
  lemma ReadsAreFinal(tool: string, k: nat, x: Pair, end: nat)
    requires GoodParams(tool, 0, end) && WasRead(tool, k, x)
    ensures k < |Params(tool)| && x == Params(tool)[k]
  {
    hide Starts, ParamAt, PairAt, GoodParam, Find, GoodParams;
    var p :| ReadIn(p, tool, k, x);
    StartsGrow(p, tool, PARAMETER, 0);
    StartsAreGood(tool, 0, end);
    ReadIsFinal(p, tool, Starts(tool, PARAMETER, 0)[k], end);
  }

  lemma {:induction false} StartsComplete(p: string, tool: string, pos: nat)
    requires p <= tool && forall k | 0 <= k < |Starts(tool, PARAMETER, pos)| :: Starts(tool, PARAMETER, pos)[k] + |PARAMETER| <= |p|
    ensures Starts(p, PARAMETER, pos) == Starts(tool, PARAMETER, pos)
    decreases |tool| - pos
  {
    hide Find;
    var at := Find(tool, PARAMETER, pos);
    FindInExtension(p, tool, PARAMETER, pos);
    if at != -1 {
      assert Starts(tool, PARAMETER, pos)[0] == at;
      assert Starts(tool, PARAMETER, pos)[1..] == Starts(tool, PARAMETER, at + |PARAMETER|);
      StartsComplete(p, tool, at + |PARAMETER|);
    }
  }

  /** When the function end has come, nothing is left to read only if everything was read. */
  lemma ExhaustedMeansAll(p: string, tool: string, n: nat)
    requires WellFormed(tool) && ExhaustedIn(p, tool, n)
    ensures n == |Params(tool)| && FunctionContent(p) == FunctionContent(tool)
  {
    hide Starts, ParamAt, PairAt, Find, GoodParams;
    var f := Find(tool, FUNCTION, 0);
    var end := Find(tool, FUNCTION_END, f + |FUNCTION|);
    FindInExtension(p, tool, FUNCTION_END, 0);
    FindFits(p, FUNCTION_END, 0);
    StartsAreGood(tool, 0, end);
    var starts := Starts(tool, PARAMETER, 0);
    forall k | 0 <= k < |starts| ensures starts[k] + |PARAMETER| <= |p| { assert GoodParam(tool, starts[k], end); }
    StartsComplete(p, tool, 0);
    if n < |starts| {
      ReadIsFinal(p, tool, starts[n], end);
    }
    FindInExtension(p, tool, FUNCTION, 0);
    FindInExtension(p, tool, FUNCTION_END, f + |FUNCTION|);
    assert p[f + |FUNCTION|..end] == tool[f + |FUNCTION|..end];
  }

  // ---- the non-streaming side ----

  /** In a slice that contains a good parameter, the pattern ends at its end tag. */
  lemma {:induction false} MatchEndsAtClose(slice: string, from: nat, close: nat)
    requires from <= close && OccursAt(slice, PARAMETER_END, close)
    requires forall i | from <= i < close ::
               !OccursAt(slice, PARAMETER_END, i) && !OccursAt(slice, PARAMETER, i) && !OccursAt(slice, FUNCTION_END, i)
    ensures MatchEnd(slice, from) == close
    decreases close - from
  {
    hide OccursAt;
    assert close < |slice| - 1 by { EndTagFits(slice, close); }
    if from < close { MatchEndsAtClose(slice, from + 1, close); }
  }

  lemma EndTagFits(slice: string, close: nat)
    requires OccursAt(slice, PARAMETER_END, close)
    ensures close < |slice| - 1
  {}

  /** A good parameter is matched up to its end tag, and parsed to its name and value. */
  lemma GoodMatch(tool: string, at: nat, lo: nat, hi: nat)
    requires lo <= at <= hi <= |tool| && GoodParam(tool, at, hi)
    ensures var from, close := at + |PARAMETER|, Find(tool, PARAMETER_END, at + |PARAMETER|);
            && lo <= from <= close && MatchEnd(tool[lo..hi], from - lo) == close - lo
            && OccursAt(tool[lo..hi], PARAMETER_END, close - lo)
            && ParsePair(tool[from..close]) == Some(PairAt(tool, at))
  {
    hide Find, MatchEnd, ParsePair, PairAt, OccursAt;
    var from := at + |PARAMETER|;
    var close := Find(tool, PARAMETER_END, from);
    FindFits(tool, ">", from);
    FindInSlice(tool, PARAMETER_END, lo, hi, from);
    FindInSlice(tool, PARAMETER, lo, hi, from);
    FindInSlice(tool, FUNCTION_END, lo, hi, from);
    MatchEndsAtClose(tool[lo..hi], from - lo, close - lo);
    GoodPair(tool, at, hi);
  }

  lemma GoodPair(tool: string, at: nat, end: nat)
    requires GoodParam(tool, at, end) && end <= |tool|
    ensures ParsePair(tool[at + |PARAMETER|..Find(tool, PARAMETER_END, at + |PARAMETER|)]) == Some(PairAt(tool, at))
  {
    hide Find, DropNewline;
    var from := at + |PARAMETER|;
    var gt, close := Find(tool, ">", from), Find(tool, PARAMETER_END, from);
    FindFits(tool, ">", from);
    FindInSlice(tool, ">", from, close, from);
    ValueStartInside(tool, gt, close);
    var m := tool[from..close];
    assert m[..gt - from] == tool[from..gt];
    var value := m[gt - from + 1..];
    assert value == tool[gt + 1..close];
    if gt + 1 < close {
      assert value[0] == tool[gt + 1] && value[1..] == tool[gt + 2..close];
    } else {
      assert tool[close..close + |PARAMETER_END|][0] == '<';
    }
  }

  /** Nothing starts between a good parameter's tag and the end of its end tag. */
  lemma SkipParameter(tool: string, at: nat, end: nat)
    requires GoodParam(tool, at, end) && GoodParams(tool, at + |PARAMETER|, end)
    ensures var next := Find(tool, PARAMETER_END, at + |PARAMETER|) + |PARAMETER_END|;
            GoodParams(tool, next, end) && Starts(tool, PARAMETER, next) == Starts(tool, PARAMETER, at + |PARAMETER|)
  {
    hide Find, GoodParam;
    SkipFind(tool, at, end);
  }

  lemma SkipFind(tool: string, at: nat, end: nat)
    requires GoodParam(tool, at, end)
    ensures var close := Find(tool, PARAMETER_END, at + |PARAMETER|);
            close >= 0 && Find(tool, PARAMETER, close + |PARAMETER_END|) == Find(tool, PARAMETER, at + |PARAMETER|)
  {
    hide Find;
    FindFromLater(tool, PARAMETER, at + |PARAMETER|, Find(tool, PARAMETER_END, at + |PARAMETER|) + |PARAMETER_END|);
  }

  lemma MatchesStep(tool: string, lo: nat, hi: nat, pos: nat)
    requires lo <= pos <= hi <= |tool|
    requires var at := Find(tool, PARAMETER, pos); at != -1 && at <= hi && GoodParam(tool, at, hi)
    ensures var from := Find(tool, PARAMETER, pos) + |PARAMETER|;
            var close := Find(tool, PARAMETER_END, from);
            && lo <= from <= close && close + |PARAMETER_END| <= hi
            && Matches(tool[lo..hi], pos - lo) == [tool[from..close]] + Matches(tool[lo..hi], close + |PARAMETER_END| - lo)
  {
    hide Find, GoodParam, MatchEnd, OccursAt, PairAt, ParsePair;
    var at := Find(tool, PARAMETER, pos);
    GoodFits(tool, at, hi);
    FindInSlice(tool, PARAMETER, lo, hi, pos);
    GoodMatch(tool, at, lo, hi);
    SliceOfSlice(tool, lo, hi, at + |PARAMETER|, Find(tool, PARAMETER_END, at + |PARAMETER|));
  }

  /** The pattern finds exactly the parameters that the streaming parser reads. */
  lemma {:induction false} MatchesAreParams(tool: string, lo: nat, hi: nat, pos: nat)
    requires lo <= pos <= hi <= |tool| && GoodParams(tool, pos, hi)
    ensures ParsePairs(Matches(tool[lo..hi], pos - lo)) == Some(PairsAt(tool, Starts(tool, PARAMETER, pos)))
    decreases |tool| - pos
  {
    hide Find, GoodParam, MatchEnd, ParsePair, PairAt, OccursAt, Starts;
    var at := Find(tool, PARAMETER, pos);
    StartsUnfold(tool, PARAMETER, pos);
    if at == -1 {
      FindInSlice(tool, PARAMETER, lo, hi, pos);
      assert PairsAt(tool, Starts(tool, PARAMETER, pos)) == [];
    } else {
      GoodFits(tool, at, hi);
      MatchesStep(tool, lo, hi, pos);
      GoodMatch(tool, at, lo, hi);
      SkipParameter(tool, at, hi);
      var close := Find(tool, PARAMETER_END, at + |PARAMETER|);
      var next := close + |PARAMETER_END|;
      MatchesAreParams(tool, lo, hi, next);
      var rest := Starts(tool, PARAMETER, at + |PARAMETER|);
      PairsAtCons(tool, at, rest);
      hide PairsAt, GoodParams;
      var m, ms := tool[at + |PARAMETER|..close], Matches(tool[lo..hi], next - lo);
      hide Matches;
      assert ([m] + ms)[1..] == ms;
      assert ParsePairs([m] + ms) == Some([PairAt(tool, at)] + PairsAt(tool, rest));
    }
  }

  lemma PairsAtCons(tool: string, at: nat, rest: seq<nat>)
    ensures PairsAt(tool, [at] + rest) == [PairAt(tool, at)] + PairsAt(tool, rest)
  {
    hide PairAt;
  }

  lemma GoodFits(tool: string, at: nat, end: nat)
    requires GoodParam(tool, at, end)
    ensures at + |PARAMETER| <= Find(tool, PARAMETER_END, at + |PARAMETER|) && Find(tool, PARAMETER_END, at + |PARAMETER|) + |PARAMETER_END| <= end
  {
    hide Find;
  }

  // ---- dictionaries ----

  ghost predicate Distinct(ps: seq<Pair>) {
    forall i, j | 0 <= i < j < |ps| :: ps[i].name != ps[j].name
  }

  /** Keys that the encoder only puts in quotes. */
  ghost predicate PlainNames(json: Json, ps: seq<Pair>) {
    forall i | 0 <= i < |ps| :: json.key(ps[i].name) == "\"" + ps[i].name + "\""
  }

  lemma {:induction false} InsertNew(d: seq<Pair>, p: Pair)
    requires forall i | 0 <= i < |d| :: d[i].name != p.name
    ensures Insert(d, p) == d + [p]
  {
    if d != [] {
      assert forall i | 0 <= i < |d[1..]| :: d[1..][i] == d[i + 1];
      InsertNew(d[1..], p);
    }
  }

  lemma {:induction false} DictOfDistinct(ps: seq<Pair>)
    requires Distinct(ps)
    ensures DictOf(ps) == ps
  {
    if ps != [] {
      DictOfDistinct(ps[..|ps| - 1]);
      InsertNew(ps[..|ps| - 1], ps[|ps| - 1]);
    }
  }

  lemma {:induction false} DumpIsRender(json: Json, func: string, ps: seq<Pair>, k: nat)
    requires PlainNames(json, ps)
    ensures DumpItems(json, func, ps, k) == Render(json, func, ps, k)
  {
    if ps != [] {
      assert forall i | 0 <= i < |ps[1..]| :: ps[1..][i] == ps[i + 1];
      DumpIsRender(json, func, ps[1..], k + 1);
      var name, value := ps[0].name, json.value(func, ps[0]);
      assert "\"" + name + "\"" + ": " + value == "\"" + name + "\": " + value;
    }
  }

  lemma ParsedIsRendered(json: Json, tool: string)
    requires WellFormed(tool) && Distinct(Params(tool)) && PlainNames(json, Params(tool))
    ensures HeaderName(tool) != None && FunctionContent(tool) != None
    ensures var name := HeaderName(tool).value;
            ParseFunction(json, FunctionContent(tool).value) == Some((name, "{" + Render(json, name, Params(tool), 0) + "}"))
  {
    hide Find, Starts, Matches, DictOf, Render, DumpItems, GoodParams, PairAt, Distinct, PlainNames;
    var f := Find(tool, FUNCTION, 0) + |FUNCTION|;
    var gt, end := Find(tool, ">", f), Find(tool, FUNCTION_END, f);
    FindFits(tool, FUNCTION_END, f);
    FindInSlice(tool, ">", f, end, f);
    var content := tool[f..end];
    assert content == FunctionContent(tool).value && content[..gt - f] == tool[f..gt];
    assert content[gt - f + 1..] == tool[gt + 1..end];
    StartsAfter(tool, gt + 1);
    GoodFrom(tool, gt + 1, end);
    MatchesAreParams(tool, gt + 1, end, gt + 1);
    DictOfDistinct(Params(tool));
    DumpIsRender(json, tool[f..gt], Params(tool), 0);
  }

  lemma StartsAfter(tool: string, from: nat)
    requires Find(tool, PARAMETER, 0) == -1 || from <= Find(tool, PARAMETER, 0)
    ensures Starts(tool, PARAMETER, from) == Starts(tool, PARAMETER, 0)
  {
    hide Find;
    FindFromLater(tool, PARAMETER, 0, from);
  }

  lemma GoodFrom(tool: string, from: nat, end: nat)
    requires GoodParams(tool, 0, end) && (Find(tool, PARAMETER, 0) == -1 || from <= Find(tool, PARAMETER, 0))
    ensures GoodParams(tool, from, end)
  {
    hide Find, GoodParam;
    FindFromLater(tool, PARAMETER, 0, from);
  }

  lemma ClosedCallIsParsed(json: Json, c: Call, tool: string)
    requires CallOk(json, c, tool, true, true)
    requires WellFormed(tool) && Distinct(Params(tool)) && PlainNames(json, Params(tool))
    ensures FunctionContent(tool) != None && c.arguments == c.streamed
    ensures ParseFunction(json, FunctionContent(tool).value) == Some((c.name, c.streamed))
  {
    hide HeaderName, Render, Params, ParseFunction, FunctionContent, Distinct, PlainNames;
    ParsedIsRendered(json, tool);
    var f := Find(tool, FUNCTION, 0) + |FUNCTION|;
    var end := Find(tool, FUNCTION_END, f);
    forall k | 0 <= k < |c.params| ensures k < |Params(tool)| && c.params[k] == Params(tool)[k] {
      assert WasRead(tool, k, c.params[k]);
      ReadsAreFinal(tool, k, c.params[k], end);
    }
    var p :| ExhaustedIn(p, tool, |c.params|) && c.arguments == KeptArguments(json, p);
    ExhaustedMeansAll(p, tool, |c.params|);
    assert c.params == Params(tool);
  }

  /** Whatever the chunking: once the closing brace of a well-formed call has been sent, what was sent for
      it is one header with its name and exactly the arguments the non-streaming parser serialises, and
      the arguments kept for the end of the stream are the same. */
  lemma StreamedEqualsParsed(json: Json, ds: seq<Delta>, i: nat)
    requires var s := Run(json, INITIAL, "", ds, []).0; i < s.index || (i == s.index && s.jsonClosed)
    ensures i < |Starts(TextOf(ds), CALL, 0)|
    ensures var tool := ToolText(TextOf(ds), i);
            var (s, log) := Run(json, INITIAL, "", ds, []);
            i < |s.calls| &&
            (WellFormed(tool) && Distinct(Params(tool)) && PlainNames(json, Params(tool)) ==>
               && FunctionContent(tool) != None && |HeadersFor(log, i)| == 1
               && ParseFunction(json, FunctionContent(tool).value) == Some((HeadersFor(log, i)[0], ArgsFor(log, i)))
               && s.calls[i].arguments == ArgsFor(log, i))
  {
    hide Run, CallOk, Starts, ToolText, WellFormed, Params, Distinct, PlainNames, FunctionContent, ParseFunction, HeadersFor, ArgsFor;
    ProtocolHolds(json, ds);
    var s, tool := Run(json, INITIAL, "", ds, []).0, ToolText(TextOf(ds), i);
    assert CallOk(json, s.calls[i], tool, true, true);
    if WellFormed(tool) && Distinct(Params(tool)) && PlainNames(json, Params(tool)) {
      ClosedCallIsParsed(json, s.calls[i], tool);
    }
  }

  // ---- the parser object ----

  /** The loop that collects start positions. */
  method AllStarts(text: string, pat: string) returns (starts: seq<nat>)
    requires 0 < |pat|
    ensures starts == Starts(text, pat, 0)
  {
    hide Starts, Find, OccursAt;
    starts := [];
    var from := 0;
    while true
      invariant starts + Starts(text, pat, from) == Starts(text, pat, 0)
      decreases |text| - from
    {
      StartsUnfold(text, pat, from);
      FindFits(text, pat, from);
      var at := Find(text, pat, from);
      if at == -1 {
        break;
      }
      starts := starts + [at as nat];
      from := at + |pat|;
    }
  }

  class Qwen3CoderToolParser {
    const json: Json
    var currentToolIndex: nat
    var isToolCallStarted: bool
    var headerSent: bool
    var paramCount: nat
    var inFunction: bool
    var jsonStarted: bool
    var jsonClosed: bool
    var calls: seq<Call>

    function Abs(): State
      reads this
    {
      State(currentToolIndex, isToolCallStarted, headerSent, paramCount, inFunction, jsonStarted, jsonClosed, calls)
    }

    constructor (json: Json)
      ensures Abs() == INITIAL && this.json == json
    {
      this.json := json;
      currentToolIndex, isToolCallStarted, headerSent, paramCount := 0, false, false, 0;
      inFunction, jsonStarted, jsonClosed, calls := false, false, false, [];
    }

    method ResetStreamingState()
      modifies this
      ensures Abs() == Reset(old(Abs()))
    {
      currentToolIndex, isToolCallStarted, headerSent, paramCount := 0, false, false, 0;
      inFunction, jsonStarted, jsonClosed := false, false, false;
    }

    method Append(fragment: string, params: seq<Pair>)
      modifies this`calls
      ensures Abs() == AddArgs(old(Abs()), fragment, params)
    {
      if currentToolIndex < |calls| {
        var c := calls[currentToolIndex];
        calls := calls[currentToolIndex := Call(c.name, c.streamed + fragment, c.params + params, c.arguments)];
      }
    }

    /** The function body: the opening brace, then all complete parameters, then the closing brace. */
    method StreamBody(tool: string) returns (event: Event)
      modifies this
      ensures (Abs(), event) == InBody(json, old(Abs()), tool)
    {
      hide Starts, Collect, Find, Render, KeptArguments, ParamAt;
      if !jsonStarted {
        Append("{", []);
        jsonStarted := true;
        return Args(currentToolIndex, "{");
      }
      var starts := AllStarts(tool, PARAMETER);
      var ready := ReadyParams(tool, starts);
      if ready != [] {
        var fragment := Render(json, FunctionName(Abs()), ready, paramCount);
        Append(fragment, ready);
        paramCount := paramCount + |ready|;
        return Args(currentToolIndex, fragment);
      }
      event := Nothing;
      if !jsonClosed && Find(tool, FUNCTION_END, 0) != -1 {
        event := Args(currentToolIndex, "}");
        if currentToolIndex < |calls| {
          var c := calls[currentToolIndex];
          calls := calls[currentToolIndex := Call(c.name, c.streamed + "}", c.params, KeptArguments(json, tool))];
        }
        jsonClosed, inFunction := true, false;
      }
    }

    /** The loop over the parameters that have become complete. */
    method ReadyParams(tool: string, starts: seq<nat>) returns (ready: seq<Pair>)
      ensures ready == if paramCount <= |starts| then Collect(tool, starts, paramCount) else []
    {
      hide ParamAt;
      ready := [];
      var k := paramCount;
      while k < |starts|
        invariant paramCount <= k
        invariant paramCount <= |starts| ==> k <= |starts| && ready + Collect(tool, starts, k) == Collect(tool, starts, paramCount)
        invariant paramCount > |starts| ==> ready == []
      {
        var p := ParamAt(tool, starts[k]);
        if p == None {
          break;
        }
        ready := ready + [p.value];
        k := k + 1;
      }
    }

    method StreamHeader(tool: string) returns (event: Event)
      modifies this
      ensures (Abs(), event) == SendHeader(old(Abs()), tool)
    {
      hide Find;
      event := Nothing;
      var f := Find(tool, FUNCTION, 0);
      if f != -1 {
        var gt := Find(tool, ">", f + |FUNCTION|);
        if gt != -1 {
          var name := tool[f + |FUNCTION|..gt];
          headerSent, inFunction := true, true;
          calls := calls + [Call(name, "", [], "{}")];
          event := Header(currentToolIndex, name);
        }
      }
    }

    method StreamEnd(current: string, d: Delta) returns (event: Event)
      ensures event == AtEndOfStream(Abs(), current, d)
    {
      hide Starts, Find;
      event := Nothing;
      if d.otherIds {
        if HasCompleteCall(current) && calls != [] {
          var starts := AllStarts(current, CALL);
          var ends := AllStarts(current, CALL_END);
          if |starts| == |ends| { event := Content(""); }
        } else if !isToolCallStarted && current != "" {
          event := Content("");
        }
      }
    }

    method ExtractToolCallsStreaming(previous: string, d: Delta) returns (event: Event)
      modifies this
      ensures (Abs(), event) == Step(json, old(Abs()), previous, d)
    {
      hide Starts, Find, InBody, SendHeader, BeforeTools, ToolText, AtEndOfStream;
      if previous == "" {
        ResetStreamingState();
      }
      ghost var s0 := Abs();
      var current := previous + d.text;
      if d.text == "" {
        event := StreamEnd(current, d);
        return;
      }
      var ends := AllStarts(current, CALL_END);
      var starts := AllStarts(current, CALL);
      if jsonClosed && !inFunction && |ends| > currentToolIndex {
        currentToolIndex := currentToolIndex + 1;
        headerSent, paramCount, jsonStarted, jsonClosed := false, 0, false, false;
        if currentToolIndex >= |starts| {
          isToolCallStarted := false;
        }
        assert Abs() == NextTool(s0, current);
        return Nothing;
      }
      if !isToolCallStarted {
        var (s1, e) := BeforeTools(Abs(), current, d);
        isToolCallStarted := s1.started;
        assert Abs() == s1 by { OnlyStarts(s0, current, d); }
        return e;
      }
      if currentToolIndex >= |starts| {
        return Nothing;
      }
      var tool := ToolText(current, currentToolIndex);
      event := Nothing;
      if !headerSent {
        event := StreamHeader(tool);
      } else if inFunction {
        event := StreamBody(tool);
      }
    }
  }

  lemma OnlyStarts(s: State, current: string, d: Delta)
    ensures BeforeTools(s, current, d).0 == s.(started := BeforeTools(s, current, d).0.started)
  {
    hide Find, Strip, RStrip, EndsWith;
  }
}
