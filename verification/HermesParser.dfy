/** The Hermes tool-call parser: `<tool_call>{...}</tool_call>` regions are re-read from the whole
    text on every delta and compared with what was already sent. */
module HermesParser {
  import opened Text

  const START := "<tool_call>"
  const END := "</tool_call>"
  const NAME_KEY := "\"name\""
  const ARGS_KEY := "\"arguments\""

  // ---- the two regular expressions over a tool-call body ----

  /** A quoted key followed by `\s*:\s*` at position `i`: the position after it, or -1. */
  function KeyEnd(s: string, key: string, i: nat): (e: int)
    ensures e != -1 ==> OccursAt(s, key, i) && i + |key| < e <= |s|
    ensures -1 <= e
  {
    if !OccursAt(s, key, i) then -1
    else
      var colon := SkipSpace(s, i + |key|);
      if colon < |s| && s[colon] == ':' then SkipSpace(s, colon + 1) else -1
  }

  function FirstKey(s: string, key: string, i: nat): (h: int)
    ensures h == -1 ==> forall k: nat | i <= k :: KeyEnd(s, key, k) == -1
    ensures h != -1 ==> i <= h && KeyEnd(s, key, h) != -1
    ensures forall k: nat | i <= k < h :: KeyEnd(s, key, k) == -1
    ensures -1 <= h
    decreases |s| - i
  {
    if i >= |s| then
      -1
    else if KeyEnd(s, key, i) != -1 then i
    else FirstKey(s, key, i + 1)
  }

  /** `"name"\s*:\s*"([^"]+)"` at position `i`. */
  function NameAt(s: string, i: nat): Option<string> {
    var e := KeyEnd(s, NAME_KEY, i);
    if e == -1 || e >= |s| || s[e] != '"' then None
    else
      var close := Find(s, "\"", e + 1);
      if close == -1 || close == e + 1 then None else Some(s[e + 1..close])
  }

  function FirstName(s: string, i: nat): (h: int)
    ensures h == -1 ==> forall k: nat | i <= k :: NameAt(s, k) == None
    ensures h != -1 ==> i <= h && NameAt(s, h) != None
    ensures forall k: nat | i <= k < h :: NameAt(s, k) == None
    ensures -1 <= h
    decreases |s| - i
  {
    if i >= |s| then
      -1
    else if NameAt(s, i) != None then i
    else FirstName(s, i + 1)
  }

  /** `_extract_tool_name`. */
  function NameOf(json: string): Option<string> {
    var h := FirstName(json, 0);
    if h == -1 then None else NameAt(json, h)
  }

  /** What follows `"arguments":` in the body, to the end of the body. */
  function RawArgs(json: string): Option<string> {
    var h := FirstKey(json, ARGS_KEY, 0);
    if h == -1 then None else Some(json[KeyEnd(json, ARGS_KEY, h)..])
  }

  /** Drops the brace that closes the outer object. */
  function DropOuterBrace(raw: string): (r: string)
    ensures r <= raw
  {
    var t := RStrip(raw);
    if t != "" && t[|t| - 1] == '}' then RStrip(t[..|t| - 1]) else t
  }

  /** `_extract_tool_args`. */
  function ArgsOf(json: string, complete: bool): Option<string> {
    match RawArgs(json)
    case None => None
    case Some(raw) => Some(if complete then DropOuterBrace(raw) else raw)
  }

  /** A quoted key never overlaps a second copy of itself except in the quote. */
  ghost predicate QuotedKey(key: string) {
    && |key| >= 3 && key[0] == '"' && key[|key| - 1] == '"'
    && (forall i | 0 < i < |key| - 1 :: key[i] != '"')
    && !IsSpace(key[1]) && key[1] != ':'
  }

  lemma KeyEndGrows(p: string, q: string, key: string, i: nat)
    requires p <= q && KeyEnd(p, key, i) != -1
    ensures KeyEnd(p, key, i) <= KeyEnd(q, key, i)
    ensures KeyEnd(p, key, i) < |p| ==> KeyEnd(q, key, i) == KeyEnd(p, key, i)
  {
    OccursInExtension(p, q, key, i);
    SkipSpacePrefix(p, q, i + |key|);
    SkipSpacePrefix(p, q, SkipSpace(p, i + |key|) + 1);
  }

  /** Before a key that is there, a position that does not match can never start to match. */
  lemma EarlierMiss(p: string, q: string, key: string, k: nat, i: nat)
    requires p <= q && QuotedKey(key) && k < i && OccursAt(p, key, i)
    ensures KeyEnd(p, key, k) == -1 ==> KeyEnd(q, key, k) == -1
    ensures KeyEnd(p, key, k) != -1 ==> KeyEnd(p, key, k) <= i
  {
    OccursInExtension(p, q, key, k);
    assert p[i..i + |key|][0] == '"' && p[i..i + |key|][1] == key[1];
    if OccursAt(p, key, k) {
      if i < k + |key| { assert p[k..k + |key|][i - k] == p[i]; }
      SkipSpacePrefix(p, q, k + |key|);
    }
  }

  /** A name that was found is the name in every extension of the body. */
  lemma NameStable(p: string, q: string)
    requires p <= q && NameOf(p) != None
    ensures NameOf(q) == NameOf(p)
  {
    var h := FirstName(p, 0);
    NameAtGrows(p, q, h);
    forall k: nat | k < h ensures NameAt(q, k) == None { NoEarlierName(p, q, k, h); }
    assert FirstName(q, 0) == h;
  }

  lemma NameAtGrows(p: string, q: string, i: nat)
    requires p <= q && NameAt(p, i) != None
    ensures NameAt(q, i) == NameAt(p, i)
  {
    hide Find, KeyEnd;
    var e := KeyEnd(p, NAME_KEY, i);
    KeyEndGrows(p, q, NAME_KEY, i);
    FindInExtension(p, q, "\"", e + 1);
    assert p[e + 1..Find(p, "\"", e + 1)] == q[e + 1..Find(p, "\"", e + 1)];
  }

  lemma NoEarlierName(p: string, q: string, k: nat, h: nat)
    requires p <= q && k < h && NameAt(p, k) == None && OccursAt(p, NAME_KEY, h)
    ensures NameAt(q, k) == None
  {
    EarlierMiss(p, q, NAME_KEY, k, h);
    var e := KeyEnd(p, NAME_KEY, k);
    if e != -1 {
      KeyEndGrows(p, q, NAME_KEY, k);
      if p[e] == '"' {
        QuoteFollows(p, h, e);
        FindInExtension(p, q, "\"", e + 1);
      }
    }
  }

  /** The quotes of a later key close any value that was opened before it. */
  lemma QuoteFollows(p: string, h: nat, e: nat)
    requires OccursAt(p, NAME_KEY, h) && e <= h
    ensures Find(p, "\"", e + 1) != -1
  {
    assert p[h..h + |NAME_KEY|][5] == '"';
    assert OccursAt(p, "\"", h + 5);
  }

  /** A body that does not end in white space only ever gains argument text. */
  lemma RawArgsGrow(p: string, q: string)
    requires p <= q && RawArgs(p) != None
    requires Trimmed(p)
    ensures RawArgs(q) != None && RawArgs(p).value <= RawArgs(q).value
    ensures RawArgs(p).value != "" ==> |RawArgs(q).value| - |RawArgs(p).value| == |q| - |p|
  {
    hide KeyEnd, FirstKey, OccursAt;
    var h := FirstKey(p, ARGS_KEY, 0);
    KeyEndGrows(p, q, ARGS_KEY, h);
    FirstKeyStable(p, q);
  }

  lemma FirstKeyStable(p: string, q: string)
    requires p <= q && FirstKey(p, ARGS_KEY, 0) != -1
    ensures FirstKey(q, ARGS_KEY, 0) == FirstKey(p, ARGS_KEY, 0)
  {
    hide KeyEnd;
    var h := FirstKey(p, ARGS_KEY, 0);
    KeyEndGrows(p, q, ARGS_KEY, h);
    forall k: nat | k < h ensures KeyEnd(q, ARGS_KEY, k) == -1 { EarlierMiss(p, q, ARGS_KEY, k, h); }
  }

  // ---- tool-call regions ----

  datatype Region = Region(json: string, closed: bool)

  /** The region whose body starts at `start`; an open region leaves out a partial end tag. */
  function RegionAt(text: string, start: nat): (r: Region)
    requires start <= |text|
    ensures Trimmed(r.json)
    ensures r.closed <==> Find(text, END, start) != -1
  {
    Region(Strip(text[start..RegionEnd(text, start, END)]), Find(text, END, start) != -1)
  }

  /** `_extract_tool_call_jsons`. */
  function Regions(text: string, pos: nat): (r: seq<Region>)
    requires pos <= |text|
    ensures forall i | 0 <= i < |r| :: Trimmed(r[i].json)
    decreases |text| - pos
  {
    var start := Find(text, START, pos);
    if start == -1 then []
    else
      var r := RegionAt(text, start + |START|);
      if r.closed then [r] + Regions(text, Find(text, END, start + |START|) + |END|) else [r]
  }

  ghost predicate GrowsInto(a: Region, b: Region) {
    a.json <= b.json && (a.closed ==> a == b)
  }

  lemma RegionGrows(p: string, q: string, start: nat)
    requires p <= q && start <= |p|
    ensures GrowsInto(RegionAt(p, start), RegionAt(q, start))
    ensures Find(p, END, start) != -1 ==> Find(q, END, start) == Find(p, END, start)
  {
    hide Strip, Find;
    var a, b := RegionEnd(p, start, END), RegionEnd(q, start, END);
    RegionEndGrows(p, q, start, END);
    StripPrefix(p[start..a], q[start..b]);
    FindInExtension(p, q, END, start);
    if Find(p, END, start) != -1 { assert p[start..a] == q[start..b]; }
  }

  ghost predicate AllGrow(a: seq<Region>, b: seq<Region>) {
    |a| <= |b| && forall i | 0 <= i < |a| :: GrowsInto(a[i], b[i])
  }

  lemma AllGrowCons(x: Region, y: Region, a: seq<Region>, b: seq<Region>)
    requires GrowsInto(x, y)
    ensures AllGrow([], b) && AllGrow([x], [y] + b)
    ensures AllGrow(a, b) ==> AllGrow([x] + a, [y] + b)
  {}

  /** The regions after the one whose body starts at `start`. */
  ghost function Later(text: string, start: nat): seq<Region>
    requires start <= |text|
  {
    if RegionAt(text, start).closed then Regions(text, Find(text, END, start) + |END|) else []
  }

  lemma RegionsUnfold(text: string, pos: nat)
    requires pos <= |text|
    ensures Find(text, START, pos) == -1 ==> Regions(text, pos) == []
    ensures var start := Find(text, START, pos);
            start != -1 ==> start + |START| <= |text|
                            && Regions(text, pos) == [RegionAt(text, start + |START|)] + Later(text, start + |START|)
  {
    hide Find, RegionAt, Trimmed, OccursAt;
    FindFits(text, START, pos);
  }

  /** A growing text keeps its regions: bodies grow and closed ones are final. */
  lemma {:induction false} RegionsGrow(p: string, q: string, pos: nat)
    requires p <= q && pos <= |p|
    ensures AllGrow(Regions(p, pos), Regions(q, pos))
    decreases |p| - pos
  {
    hide Find, RegionAt, Trimmed, Regions;
    RegionsUnfold(p, pos);
    RegionsUnfold(q, pos);
    FindInExtension(p, q, START, pos);
    if Find(p, START, pos) != -1 {
      var start := Find(p, START, pos) + |START|;
      RegionGrows(p, q, start);
      if RegionAt(p, start).closed { RegionsGrow(p, q, Find(p, END, start) + |END|); }
      hide *;
      AllGrowCons(RegionAt(p, start), RegionAt(q, start), Later(p, start), Later(q, start));
    }
  }

  // ---- the streaming step ----

  /** What the parser remembers between deltas; `names[i]` and `streamed[i]` belong to tool `i`. */
  datatype State = State(sent: nat, names: seq<Option<string>>, streamed: seq<string>)

  datatype Delta = Name(index: nat, name: string) | Args(index: nat, fragment: string)

  const INITIAL := State(0, [], [])

  /** `_compute_args_diff`. */
  function ArgsDiff(st: State, i: nat, json: string, complete: bool): (r: (State, seq<Delta>))
    requires i < |st.streamed|
    ensures r.0.names == st.names && |r.0.streamed| == |st.streamed| && r.0.sent == st.sent
  {
    match ArgsOf(json, complete)
    case None => (st, [])
    case Some(args) =>
      if |args| <= |st.streamed[i]| then (st, [])
      else (st.(streamed := st.streamed[i := args]), [Args(i, args[|st.streamed[i]|..])])
  }

  /** Makes room for tool `i`. */
  function Enter(st: State, i: nat): (st': State)
    requires i <= |st.names| == |st.streamed|
    ensures |st'.names| == |st'.streamed| > i
  {
    if i == |st.names| then State(st.sent, st.names + [None], st.streamed + [""]) else st
  }

  /** Sends the header of tool `i` once its name can be read. */
  function Header(st: State, i: nat, json: string): (r: (State, seq<Delta>))
    requires i < |st.names|
    ensures r.0.streamed == st.streamed && |r.0.names| == |st.names| && r.0.sent == st.sent
  {
    if st.names[i] != None || NameOf(json) == None then (st, [])
    else (st.(names := st.names[i := NameOf(json)]), [Name(i, NameOf(json).value)])
  }

  /** The `is_complete` flag of a region. */
  predicate CompleteBody(r: Region, isJson: string -> bool) {
    r.closed || (r.json != "" && isJson(r.json))
  }

  /** The loop over the regions from tool `i` on; it stops at a tool whose name is not there yet. */
  function Tools(st: State, regions: seq<Region>, i: nat, isJson: string -> bool): (r: (State, seq<Delta>))
    requires i <= |regions| && i <= |st.names| == |st.streamed|
    ensures |r.0.names| == |r.0.streamed|
    decreases |regions| - i
  {
    if i == |regions| then (st, [])
    else
      var json := regions[i].json;
      var (st1, header) := Header(Enter(st, i), i, json);
      if st1.names[i] == None then (st1, [])
      else
        var complete := CompleteBody(regions[i], isJson);
        var (st2, args) := ArgsDiff(st1, i, json, complete);
        var (st3, rest) := Tools(st2, regions, i + 1, isJson);
        (st3, header + args + rest)
  }

  /** `_extract_content`: the new content, "" when there is none. */
  function Content(st: State, text: string): (r: (State, string))
    ensures r.0.names == st.names && r.0.streamed == st.streamed
  {
    var n := Sendable(text, START);
    if n > st.sent then (st.(sent := n), text[st.sent..n]) else (st, "")
  }

  /** `extract_tool_calls_streaming` on the text so far. */
  function Step(st: State, text: string, isJson: string -> bool): (r: (State, string, seq<Delta>))
    requires |st.names| == |st.streamed|
    ensures |r.0.names| == |r.0.streamed|
  {
    var (st1, content) := Content(st, text);
    var (st2, deltas) := Tools(st1, Regions(text, 0), 0, isJson);
    (st2, content, deltas)
  }

  // ---- what the client sees ----

  function FragmentOf(d: Delta, i: nat): string {
    if d.Args? && d.index == i then d.fragment else ""
  }

  function HeaderOf(d: Delta, i: nat): seq<string> {
    if d.Name? && d.index == i then [d.name] else []
  }

  function ArgsFor(log: seq<Delta>, i: nat): string {
    if log == [] then "" else FragmentOf(log[0], i) + ArgsFor(log[1..], i)
  }

  function NamesFor(log: seq<Delta>, i: nat): seq<string> {
    if log == [] then [] else HeaderOf(log[0], i) + NamesFor(log[1..], i)
  }

  lemma {:induction false} ArgsAppend(a: seq<Delta>, b: seq<Delta>, i: nat)
    ensures ArgsFor(a + b, i) == ArgsFor(a, i) + ArgsFor(b, i)
  {
    hide FragmentOf;
    if a == [] {
      assert a + b == b;
    } else {
      assert (a + b)[1..] == a[1..] + b;
      ArgsAppend(a[1..], b, i);
    }
  }

  lemma {:induction false} NamesAppend(a: seq<Delta>, b: seq<Delta>, i: nat)
    ensures NamesFor(a + b, i) == NamesFor(a, i) + NamesFor(b, i)
  {
    hide HeaderOf;
    if a == [] {
      assert a + b == b;
    } else {
      assert (a + b)[1..] == a[1..] + b;
      NamesAppend(a[1..], b, i);
    }
  }

  lemma LogsAppendOne(log: seq<Delta>, d: Delta, i: nat)
    ensures ArgsFor(log + [d], i) == ArgsFor(log, i) + (if d.Args? && d.index == i then d.fragment else "")
    ensures NamesFor(log + [d], i) == NamesFor(log, i) + (if d.Name? && d.index == i then [d.name] else [])
  {
    ArgsAppend(log, [d], i);
    NamesAppend(log, [d], i);
    assert [d][1..] == [];
  }

  function ArgText(json: string): string {
    match RawArgs(json) case None => "" case Some(raw) => raw
  }

  /** What is remembered and what was emitted for one tool agree with its body. */
  ghost predicate ToolOk(name: Option<string>, streamed: string, json: string, names: seq<string>, args: string) {
    && args == streamed <= ArgText(json)
    && (name == None ==> names == [] && streamed == "")
    && (name != None ==> names == [name.value] && NameOf(json) == name)
  }

  ghost predicate ToolsOk(st: State, regions: seq<Region>, log: seq<Delta>) {
    && |st.names| == |st.streamed| <= |regions|
    && (forall i | 0 <= i < |st.names| ::
          ToolOk(st.names[i], st.streamed[i], regions[i].json, NamesFor(log, i), ArgsFor(log, i)))
    && (forall i: nat | |st.names| <= i :: ArgsFor(log, i) == "" && NamesFor(log, i) == [])
  }

  ghost predicate Inv(st: State, text: string, content: string, log: seq<Delta>) {
    && st.sent == Sendable(text, START) && content == text[..st.sent]
    && ToolsOk(st, Regions(text, 0), log)
  }

  lemma ToolGrows(name: Option<string>, streamed: string, p: string, q: string, names: seq<string>, args: string)
    requires p <= q && Trimmed(p)
    requires ToolOk(name, streamed, p, names, args)
    ensures ToolOk(name, streamed, q, names, args)
  {
    if name != None { NameStable(p, q); }
    if RawArgs(p) != None { RawArgsGrow(p, q); }
  }

  lemma EnterOk(st: State, regions: seq<Region>, i: nat, log: seq<Delta>)
    requires ToolsOk(st, regions, log) && i <= |st.names| && i < |regions|
    ensures ToolsOk(Enter(st, i), regions, log)
  {}

  lemma HeaderOk(st: State, regions: seq<Region>, i: nat, log: seq<Delta>)
    requires ToolsOk(st, regions, log) && i < |st.names|
    ensures var (st', header) := Header(st, i, regions[i].json); ToolsOk(st', regions, log + header)
  {
    hide NameOf, ArgText, ArgsFor, NamesFor, ToolsOk;
    ToolsOkSizes(st, regions, log);
    if st.names[i] != None || NameOf(regions[i].json) == None {
      assert log + [] == log;
    } else {
      NewHeaderOk(st, regions, i, log, NameOf(regions[i].json).value);
    }
  }

  lemma NewHeaderOk(st: State, regions: seq<Region>, i: nat, log: seq<Delta>, name: string)
    requires ToolsOk(st, regions, log) && i < |st.names| && st.names[i] == None && NameOf(regions[i].json) == Some(name)
    ensures ToolsOk(st.(names := st.names[i := Some(name)]), regions, log + [Name(i, name)])
  {
    hide NameOf, ArgText, ArgsFor, NamesFor;
    var st', log' := st.(names := st.names[i := Some(name)]), log + [Name(i, name)];
    forall k: nat
      ensures ArgsFor(log', k) == ArgsFor(log, k) && NamesFor(log', k) == NamesFor(log, k) + (if k == i then [name] else [])
    {
      LogsAppendOne(log, Name(i, name), k);
    }
    forall k | 0 <= k < |st.names|
      ensures ToolOk(st'.names[k], st'.streamed[k], regions[k].json, NamesFor(log', k), ArgsFor(log', k))
    {
      assert ToolOk(st.names[k], st.streamed[k], regions[k].json, NamesFor(log, k), ArgsFor(log, k));
    }
  }

  lemma DiffOk(name: Option<string>, streamed: string, json: string, complete: bool, names: seq<string>, args: string)
    requires ToolOk(name, streamed, json, names, args) && name != None
    requires ArgsOf(json, complete) != None && |streamed| < |ArgsOf(json, complete).value|
    ensures var now := ArgsOf(json, complete).value; ToolOk(name, now, json, names, args + now[|streamed|..])
  {
    var now := ArgsOf(json, complete).value;
    PrefixOfSame(streamed, now, ArgText(json));
    assert streamed + now[|streamed|..] == now;
  }

  lemma ArgsOk(st: State, regions: seq<Region>, i: nat, complete: bool, log: seq<Delta>)
    requires ToolsOk(st, regions, log) && i < |st.names| && st.names[i] != None
    ensures var (st', args) := ArgsDiff(st, i, regions[i].json, complete); ToolsOk(st', regions, log + args)
  {
    var json := regions[i].json;
    var (st', d) := ArgsDiff(st, i, json, complete);
    if d == [] {
      assert log + d == log;
    } else {
      DiffOk(st.names[i], st.streamed[i], json, complete, NamesFor(log, i), ArgsFor(log, i));
      forall k: nat
        ensures ArgsFor(log + d, k) == ArgsFor(log, k) + (if k == i then d[0].fragment else "")
        ensures NamesFor(log + d, k) == NamesFor(log, k)
      {
        LogsAppendOne(log, d[0], k);
      }
      forall k | 0 <= k < |st.names| && k != i
        ensures ToolOk(st'.names[k], st'.streamed[k], regions[k].json, NamesFor(log + d, k), ArgsFor(log + d, k))
      {}
    }
  }

  /** One round of the loop over the regions. */
  lemma ToolsHead(st: State, regions: seq<Region>, i: nat, isJson: string -> bool)
    requires i < |regions| && i <= |st.names| == |st.streamed|
    ensures var (st1, header) := Header(Enter(st, i), i, regions[i].json);
            if st1.names[i] == None then Tools(st, regions, i, isJson) == (st1, [])
            else
              var (st2, args) := ArgsDiff(st1, i, regions[i].json, CompleteBody(regions[i], isJson));
              var (st3, rest) := Tools(st2, regions, i + 1, isJson);
              Tools(st, regions, i, isJson) == (st3, header + args + rest)
  {
    hide Header, ArgsDiff, Enter;
  }

  lemma ToolsDone(st: State, regions: seq<Region>, isJson: string -> bool)
    requires |regions| <= |st.names| == |st.streamed|
    ensures Tools(st, regions, |regions|, isJson) == (st, [])
  {}

  /** One pass over the regions from tool `i` on keeps every tool in agreement. */
  lemma {:induction false} ToolsKeepOk(st: State, regions: seq<Region>, i: nat, isJson: string -> bool, log: seq<Delta>)
    requires ToolsOk(st, regions, log) && i <= |st.names|
    ensures var (st', deltas) := Tools(st, regions, i, isJson);
            ToolsOk(st', regions, log + deltas) && st'.sent == st.sent
    decreases |regions| - i
  {
    hide ToolsOk, Tools, Header, ArgsDiff, CompleteBody;
    ToolsOkSizes(st, regions, log);
    if i == |regions| {
      ToolsDone(st, regions, isJson);
      assert log + [] == log;
    } else {
      var json := regions[i].json;
      var (st1, header) := Header(Enter(st, i), i, json);
      ToolsHead(st, regions, i, isJson);
      EnterOk(st, regions, i, log);
      HeaderOk(Enter(st, i), regions, i, log);
      if st1.names[i] == None {
        NoHeader(Enter(st, i), i, json);
        assert log + [] == log;
      } else {
        var (st2, args) := ArgsDiff(st1, i, json, CompleteBody(regions[i], isJson));
        ArgsOk(st1, regions, i, CompleteBody(regions[i], isJson), log + header);
        var rest := Tools(st2, regions, i + 1, isJson).1;
        ToolsKeepOk(st2, regions, i + 1, isJson, log + header + args);
        assert log + (header + args + rest) == log + header + args + rest;
      }
    }
  }

  lemma ToolsOkSizes(st: State, regions: seq<Region>, log: seq<Delta>)
    requires ToolsOk(st, regions, log)
    ensures |st.names| == |st.streamed| <= |regions|
  {}

  lemma NoHeader(st: State, i: nat, json: string)
    requires i < |st.names|
    ensures var (st1, header) := Header(st, i, json); st1.names[i] == None ==> st1 == st && header == []
  {
    hide NameOf;
  }

  /** Every delta keeps the invariant, whatever `is_complete_json` answers. */
  lemma StepKeepsInv(st: State, p: string, q: string, isJson: string -> bool, content: string, log: seq<Delta>)
    requires p <= q && Inv(st, p, content, log)
    ensures var (st', c, deltas) := Step(st, q, isJson); Inv(st', q, content + c, log + deltas)
  {
    hide ToolOk, ArgsFor, NamesFor, Tools, Regions, Sendable;
    SendableMonotone(p, q, START);
    RegionsGrow(p, q, 0);
    var was, now := Regions(p, 0), Regions(q, 0);
    forall i | 0 <= i < |st.names|
      ensures ToolOk(st.names[i], st.streamed[i], now[i].json, NamesFor(log, i), ArgsFor(log, i))
    {
      assert GrowsInto(was[i], now[i]);
      ToolGrows(st.names[i], st.streamed[i], was[i].json, now[i].json, NamesFor(log, i), ArgsFor(log, i));
    }
    var (st1, c) := Content(st, q);
    assert content + c == q[..Sendable(q, START)];
    ToolsKeepOk(st1, now, 0, isJson, log);
  }

  // ---- whole streams ----

  function Concat(chunks: seq<string>): string {
    if chunks == [] then "" else chunks[0] + Concat(chunks[1..])
  }

  /** Feeds the chunks after `text` one by one; the content and the deltas the client receives. */
  function Run(st: State, text: string, chunks: seq<string>, isJson: string -> bool): (r: (State, string, seq<Delta>))
    requires |st.names| == |st.streamed|
    ensures |r.0.names| == |r.0.streamed|
    decreases |chunks|
  {
    if chunks == [] then (st, "", [])
    else
      var (st1, c1, d1) := Step(st, text + chunks[0], isJson);
      var (st2, c2, d2) := Run(st1, text + chunks[0], chunks[1..], isJson);
      (st2, c1 + c2, d1 + d2)
  }

  lemma {:induction false} RunKeepsInv(st: State, text: string, chunks: seq<string>, isJson: string -> bool,
                                       content: string, log: seq<Delta>)
    requires |st.names| == |st.streamed| && Inv(st, text, content, log)
    ensures var (st', c, d) := Run(st, text, chunks, isJson);
            Inv(st', text + Concat(chunks), content + c, log + d)
    decreases |chunks|
  {
    hide Step, Inv;
    if chunks == [] {
      assert text + "" == text && content + "" == content && log + [] == log;
    } else {
      var now := text + chunks[0];
      var (st1, c1, d1) := Step(st, now, isJson);
      StepKeepsInv(st, text, now, isJson, content, log);
      var (st2, c2, d2) := Run(st1, now, chunks[1..], isJson);
      RunKeepsInv(st1, now, chunks[1..], isJson, content + c1, log + d1);
      assert text + Concat(chunks) == now + Concat(chunks[1..]);
      assert content + (c1 + c2) == content + c1 + c2 && log + (d1 + d2) == log + d1 + d2;
    }
  }

  lemma EmptyRegions()
    ensures Regions("", 0) == []
  {}

  lemma InitialInv()
    ensures Inv(INITIAL, "", "", [])
  {
    hide Sendable, Regions;
    EmptyRegions();
  }

  /** However the text is cut: the content sent is the text up to the first tag (or up to what may
      become one), each tool has at most one header, carrying the name in its body, and its argument
      fragments add up to a prefix of its argument text. */
  lemma StreamingIsChunkIndependent(chunks: seq<string>, isJson: string -> bool, i: nat)
    ensures var text := Concat(chunks);
            var (st, content, log) := Run(INITIAL, "", chunks, isJson);
            var regions := Regions(text, 0);
            && content == text[..Sendable(text, START)]
            && (i >= |regions| ==> NamesFor(log, i) == [] && ArgsFor(log, i) == "")
            && (i < |regions| ==>
                  && ArgsFor(log, i) <= ArgText(regions[i].json)
                  && (NamesFor(log, i) == [] || (NameOf(regions[i].json) != None
                                                 && NamesFor(log, i) == [NameOf(regions[i].json).value]))
                  && (NamesFor(log, i) == [] ==> ArgsFor(log, i) == ""))
  {
    hide Run, Regions, NameOf, Sendable, ArgText, NamesFor, ArgsFor;
    InitialInv();
    RunKeepsInv(INITIAL, "", chunks, isJson, "", []);
    var (st, content, log) := Run(INITIAL, "", chunks, isJson);
    assert "" + Concat(chunks) == Concat(chunks) && "" + content == content && [] + log == log;
  }

  /** A slice that ends before the first tag is complete has no tag. */
  lemma NoTagInSlice(text: string, tag: string, lo: nat, hi: nat)
    requires lo <= hi <= |text| && (Find(text, tag, lo) == -1 || hi < Find(text, tag, lo) + |tag|)
    ensures Find(text[lo..hi], tag, 0) == -1
  {
    hide Find, OccursAt;
    FindInSlice(text, tag, lo, hi, lo);
  }

  lemma NoTagInPart(text: string, tag: string, lo: nat, hi: nat)
    requires lo <= hi <= |text| && Find(text, tag, 0) == -1
    ensures Find(text[lo..hi], tag, 0) == -1
  {
    hide Find, OccursAt;
    FindFromLater(text, tag, 0, lo);
    NoTagInSlice(text, tag, lo, hi);
  }

  lemma StripIsSlice(s: string)
    ensures var lead := SkipSpace(s, 0); lead + |Strip(s)| <= |s| && Strip(s) == s[lead..lead + |Strip(s)|]
  {
    var lead := SkipSpace(s, 0);
    assert Strip(s) == s[lead..][..|Strip(s)|];
  }

  lemma BodyHasNoEndTag(text: string, start: nat)
    requires start <= |text|
    ensures Find(RegionAt(text, start).json, END, 0) == -1
  {
    hide PartialTagOverlap, Find, OccursAt, Strip, SkipSpace, Trimmed;
    var end := RegionEnd(text, start, END);
    var raw := text[start..end];
    NoTagInSlice(text, END, start, end);
    StripIsSlice(raw);
    NoTagInPart(raw, END, SkipSpace(raw, 0), SkipSpace(raw, 0) + |Strip(raw)|);
  }

  lemma {:induction false} BodiesHaveNoEndTag(text: string, pos: nat, i: nat)
    requires pos <= |text| && i < |Regions(text, pos)|
    ensures Find(Regions(text, pos)[i].json, END, 0) == -1
    decreases |text| - pos
  {
    hide Find, RegionAt, Trimmed, Regions, OccursAt;
    RegionsUnfold(text, pos);
    var start := Find(text, START, pos) + |START|;
    if i == 0 {
      BodyHasNoEndTag(text, start);
    } else {
      FindFits(text, END, start);
      BodiesHaveNoEndTag(text, Find(text, END, start) + |END|, i - 1);
    }
  }

  /** No end tag, and no part of the text after one, ever reaches the client as arguments. */
  lemma NoEndTagLeaks(chunks: seq<string>, isJson: string -> bool, i: nat)
    ensures Find(ArgsFor(Run(INITIAL, "", chunks, isJson).2, i), END, 0) == -1
  {
    hide Run, Regions, NameOf, Sendable, ArgsFor, NamesFor, Find, OccursAt, RawArgs, ArgText;
    StreamingIsChunkIndependent(chunks, isJson, i);
    var args := ArgsFor(Run(INITIAL, "", chunks, isJson).2, i);
    NoTagInNothing();
    if i < |Regions(Concat(chunks), 0)| {
      var json := Regions(Concat(chunks), 0)[i].json;
      BodiesHaveNoEndTag(Concat(chunks), 0, i);
      ArgTextIs(json);
      if RawArgs(json) != None {
        ArgumentSlice(json, args);
        var at := |json| - |RawArgs(json).value|;
        NoTagInPart(json, END, at, at + |args|);
      }
    }
  }

  lemma NoTagInNothing()
    ensures Find("", END, 0) == -1
  {}

  lemma ArgTextIs(json: string)
    ensures ArgText(json) == if RawArgs(json) == None then "" else RawArgs(json).value
  {
    hide RawArgs;
  }

  lemma ArgumentSlice(json: string, args: string)
    requires RawArgs(json) != None && args <= RawArgs(json).value
    ensures |RawArgs(json).value| <= |json|
    ensures var at := |json| - |RawArgs(json).value|; args == json[at..at + |args|]
  {
    hide FirstKey;
    var raw := RawArgs(json).value;
    assert args == raw[..|args|];
  }

  /** What the pattern `<tool_call>(.*?)</tool_call>|<tool_call>(.*)` captures from `pos` on. */
  function Captures(text: string, pos: nat): seq<string>
    decreases |text| - pos
  {
    var start := Find(text, START, pos);
    if start == -1 then []
    else
      var end := Find(text, END, start + |START|);
      if end == -1 then [text[start + |START|..]] else [text[start + |START|..end]] + Captures(text, end + |END|)
  }

  /** The captured bodies are those that streaming reads: up to white space when closed. */
  lemma {:induction false} CapturesAreRegions(text: string, pos: nat)
    requires pos <= |text|
    ensures |Captures(text, pos)| == |Regions(text, pos)|
    ensures forall i | 0 <= i < |Regions(text, pos)| && Regions(text, pos)[i].closed ::
              Regions(text, pos)[i].json == Strip(Captures(text, pos)[i])
    decreases |text| - pos
  {
    hide Find, Strip, Regions, Captures, Trimmed;
    RegionsUnfold(text, pos);
    CapturesUnfold(text, pos);
    if Find(text, START, pos) != -1 {
      var start := Find(text, START, pos) + |START|;
      var end := Find(text, END, start);
      FindFits(text, END, start);
      if end != -1 { CapturesAreRegions(text, end + |END|); }
    }
  }

  lemma CapturesUnfold(text: string, pos: nat)
    requires pos <= |text|
    ensures var start := Find(text, START, pos);
            && (start != -1 ==> start + |START| <= |text|)
            && Captures(text, pos) ==
                 if start == -1 then []
                 else
                   var from := start + |START|; var end := Find(text, END, from);
                   if end == -1 then [text[from..]] else [text[from..end]] + Captures(text, end + |END|)
  {
    hide Find;
    FindFits(text, START, pos);
  }

  /** The content of the non-streaming extractor: what is in front of the first tag, or the whole text if a captured body
      is not the JSON of a call. */
  function NonStreamingContent(text: string, isCall: string -> bool): string {
    if Find(text, START, 0) == -1 || exists body | body in Captures(text, 0) :: !isCall(body) then text
    else text[..Find(text, START, 0)]
  }

  /** With a start tag the two agree exactly if every body is a call, without one exactly if nothing is held back. */
  lemma ContentAgreesWithNonStreaming(chunks: seq<string>, isJson: string -> bool, isCall: string -> bool)
    ensures var text := Concat(chunks);
            var content := Run(INITIAL, "", chunks, isJson).1;
            content == NonStreamingContent(text, isCall) <==>
              if Find(text, START, 0) != -1 then forall body | body in Captures(text, 0) :: isCall(body)
              else PartialTagOverlap(text, START) == 0
  {
    hide Run, Find, PartialTagOverlap, Captures;
    StreamingIsChunkIndependent(chunks, isJson, 0);
    var text := Concat(chunks);
    assert text[..|text|] == text;
  }

  // ---- the arguments of a finished body ----

  /** The arguments once the body is complete. */
  function FinalArgs(json: string): string {
    DropOuterBrace(ArgText(json))
  }

  lemma ArgsAreSuffix(json: string)
    requires RawArgs(json) != None && Trimmed(json)
    ensures Trimmed(RawArgs(json).value)
    ensures json[|json| - 1] == '}' ==> RawArgs(json).value != "" && RawArgs(json).value[|RawArgs(json).value| - 1] == '}'
  {}

  /** Text before the outer brace stays in front of what dropping the brace leaves. */
  lemma BeforeBrace(raw: string, all: string)
    requires raw <= all && |raw| < |all| && Trimmed(raw) && all[|all| - 1] == '}'
    ensures raw <= DropOuterBrace(all)
  {
    hide AllSpace;
    RStripTrimmed(all);
    RStripTrimmed(raw);
    assert raw <= all[..|all| - 1];
    RStripPrefix(raw, all[..|all| - 1]);
  }

  lemma RStripTrimmed(s: string)
    requires Trimmed(s)
    ensures RStrip(s) == s
  {}

  /** What is streamed for a body on its way to `json` stays inside the arguments value. */
  lemma ArgsStayBelow(part: string, json: string, complete: bool)
    requires part <= json && Trimmed(part) && Trimmed(json)
    requires json != "" && json[|json| - 1] == '}' && (part == json ==> complete)
    requires ArgsOf(part, complete) != None
    ensures ArgsOf(part, complete).value <= FinalArgs(json)
  {
    hide RawArgs, DropOuterBrace, Trimmed;
    RawArgsGrow(part, json);
    var raw, all := RawArgs(part).value, RawArgs(json).value;
    ArgsAreSuffix(part);
    ArgsAreSuffix(json);
    if part != json {
      if raw != "" { BeforeBrace(raw, all); }
      PrefixTransitive(ArgsOf(part, complete).value, raw, DropOuterBrace(all));
    }
  }

  ghost predicate Below(st: State, i: nat, value: string) {
    i < |st.streamed| ==> st.streamed[i] <= value
  }

  /** A pass over regions whose body `i` yields at most `value` streams at most `value` for tool `i`. */
  lemma {:induction false} ToolsStayBelow(st: State, regions: seq<Region>, j: nat, isJson: string -> bool, i: nat, value: string)
    requires j <= |regions| && j <= |st.names| == |st.streamed|
    requires Below(st, i, value)
    requires i < |regions| ==>
               var args := ArgsOf(regions[i].json, CompleteBody(regions[i], isJson));
               args != None ==> args.value <= value
    ensures Below(Tools(st, regions, j, isJson).0, i, value)
    decreases |regions| - j
  {
    hide ArgsOf, NameOf;
    if j < |regions| {
      var st1 := Header(Enter(st, j), j, regions[j].json).0;
      if st1.names[j] != None {
        var st2 := ArgsDiff(st1, j, regions[j].json, CompleteBody(regions[j], isJson)).0;
        ToolsStayBelow(st2, regions, j + 1, isJson, i, value);
      }
    }
  }

  /** When every tool up to `i` has a name by now, the pass reaches tool `i` and brings it up to date. */
  lemma {:induction false} ToolsReach(st: State, regions: seq<Region>, j: nat, isJson: string -> bool, i: nat)
    requires j <= i < |regions| && j <= |st.names| == |st.streamed|
    requires forall k | j <= k <= i :: NameOf(regions[k].json) != None
    requires ArgsOf(regions[i].json, CompleteBody(regions[i], isJson)) != None
    requires i < |st.streamed| ==> st.streamed[i] <= ArgsOf(regions[i].json, CompleteBody(regions[i], isJson)).value
    ensures var st' := Tools(st, regions, j, isJson).0;
            i < |st'.streamed| && st'.names[i] != None
            && st'.streamed[i] == ArgsOf(regions[i].json, CompleteBody(regions[i], isJson)).value
    decreases |regions| - j
  {
    hide ArgsOf, NameOf;
    var st1 := Header(Enter(st, j), j, regions[j].json).0;
    var st2 := ArgsDiff(st1, j, regions[j].json, CompleteBody(regions[j], isJson)).0;
    if j < i { ToolsReach(st2, regions, j + 1, isJson, i); } else { ToolsFrame(st2, regions, j + 1, isJson, i); }
  }

  lemma {:induction false} ToolsFrame(st: State, regions: seq<Region>, j: nat, isJson: string -> bool, i: nat)
    requires i < j <= |regions| && j <= |st.names| == |st.streamed|
    ensures var st' := Tools(st, regions, j, isJson).0;
            i < |st'.names| && st'.streamed[i] == st.streamed[i] && st'.names[i] == st.names[i]
    decreases |regions| - j
  {
    hide ArgsOf, NameOf;
    if j < |regions| {
      var st1 := Header(Enter(st, j), j, regions[j].json).0;
      if st1.names[j] != None {
        ToolsFrame(ArgsDiff(st1, j, regions[j].json, CompleteBody(regions[j], isJson)).0, regions, j + 1, isJson, i);
      }
    }
  }

  /** Region `i` of the text is closed, its body is an object whose last member is the arguments, and
      every region up to it names its tool. */
  ghost predicate FinishedCall(text: string, i: nat, isJson: string -> bool) {
    var regions := Regions(text, 0);
    && i < |regions| && regions[i].closed
    && var json := regions[i].json;
    && json != "" && json[|json| - 1] == '}' && isJson(json) && RawArgs(json) != None
    && forall k | 0 <= k <= i :: NameOf(regions[k].json) != None
  }

  lemma StepStaysBelow(st: State, p: string, text: string, i: nat, isJson: string -> bool)
    requires |st.names| == |st.streamed| && p <= text && FinishedCall(text, i, isJson)
    requires Below(st, i, FinalArgs(Regions(text, 0)[i].json))
    ensures Below(Step(st, p, isJson).0, i, FinalArgs(Regions(text, 0)[i].json))
  {
    hide ArgsOf, NameOf, Regions, RawArgs, Tools, Sendable, FinalArgs;
    RegionsGrow(p, text, 0);
    var all, part := Regions(text, 0), Regions(p, 0);
    var value := FinalArgs(all[i].json);
    if i < |part| && ArgsOf(part[i].json, CompleteBody(part[i], isJson)) != None {
      assert GrowsInto(part[i], all[i]);
      ArgsStayBelow(part[i].json, all[i].json, CompleteBody(part[i], isJson));
    }
    ToolsStayBelow(Content(st, p).0, part, 0, isJson, i, value);
  }

  lemma {:induction false} RunReaches(st: State, text: string, chunks: seq<string>, i: nat, isJson: string -> bool)
    requires |st.names| == |st.streamed| && chunks != [] && FinishedCall(text + Concat(chunks), i, isJson)
    requires Below(st, i, FinalArgs(Regions(text + Concat(chunks), 0)[i].json))
    ensures var st' := Run(st, text, chunks, isJson).0;
            i < |st'.streamed| && st'.names[i] != None
            && st'.streamed[i] == FinalArgs(Regions(text + Concat(chunks), 0)[i].json)
    decreases |chunks|
  {
    assert FinishedCall(text + Concat(chunks), i, isJson) ==>
        ArgsOf(Regions(text + Concat(chunks), 0)[i].json, true) == Some(FinalArgs(Regions(text + Concat(chunks), 0)[i].json)) by {
      hide Regions, NameOf, RawArgs, DropOuterBrace;
    }
    hide ArgsOf, NameOf, Regions, RawArgs, Tools, Sendable, FinalArgs;
    var now, all := text + chunks[0], text + Concat(chunks);
    assert all == now + Concat(chunks[1..]);
    if |chunks| == 1 {
      assert now == all by { assert Concat(chunks[1..]) == ""; }
      ToolsReach(Content(st, now).0, Regions(now, 0), 0, isJson, i);
      assert Run(Step(st, now, isJson).0, now, chunks[1..], isJson).0 == Step(st, now, isJson).0;
    } else {
      StepStaysBelow(st, now, all, i, isJson);
      RunReaches(Step(st, now, isJson).0, now, chunks[1..], i, isJson);
    }
  }

  /** For a finished call the fragments add up to exactly the arguments value, for every chunking:
      the brace that closes the outer object never leaks. */
  lemma ArgumentsAreExact(chunks: seq<string>, i: nat, isJson: string -> bool)
    requires FinishedCall(Concat(chunks), i, isJson)
    ensures var json := Regions(Concat(chunks), 0)[i].json;
            var log := Run(INITIAL, "", chunks, isJson).2;
            NamesFor(log, i) == [NameOf(json).value] && ArgsFor(log, i) == FinalArgs(json)
  {
    hide Regions, Run, NamesFor, ArgsFor, NameOf, RawArgs, Sendable, ArgText, FinalArgs;
    var text := Concat(chunks);
    assert chunks != [] by { assert Regions("", 0) == [] by { EmptyRegions(); } }
    assert "" + text == text;
    RunReaches(INITIAL, "", chunks, i, isJson);
    InitialInv();
    RunKeepsInv(INITIAL, "", chunks, isJson, "", []);
    var log := Run(INITIAL, "", chunks, isJson).2;
    assert [] + log == log;
  }

  /** What "the arguments value" is: for a body that reads `head value gap }`, where `head` ends after
      the first `"arguments":` and its white space, it is `value`. */
  lemma ArgumentsValue(head: string, value: string, gap: string)
    requires var json := head + value + gap + "}";
             FirstKey(json, ARGS_KEY, 0) != -1 && KeyEnd(json, ARGS_KEY, FirstKey(json, ARGS_KEY, 0)) == |head|
    requires value != "" && Trimmed(value) && AllSpace(gap)
    ensures FinalArgs(head + value + gap + "}") == value
  {
    var raw := value + gap + "}";
    assert (head + value + gap + "}")[|head|..] == raw;
    assert RStrip(raw) == raw && raw[..|raw| - 1] == value + gap;
    RStripGap(value, gap);
  }

  lemma {:induction false} RStripGap(value: string, gap: string)
    requires Trimmed(value) && AllSpace(gap)
    ensures RStrip(value + gap) == value
  {
    if gap == "" {
      assert value + gap == value;
    } else {
      assert (value + gap)[..|value + gap| - 1] == value + gap[..|gap| - 1];
      RStripGap(value, gap[..|gap| - 1]);
    }
  }

  /** A body around the value of a key: `head key white : white tail`. */
  function Keyed(head: string, key: string, before: string, after: string, tail: string): string {
    head + key + before + ":" + after + tail
  }

  lemma SkipsTo(s: string, i: nat, j: nat)
    requires i <= j <= |s| && (forall k | i <= k < j :: IsSpace(s[k])) && (j < |s| ==> !IsSpace(s[j]))
    ensures SkipSpace(s, i) == j
  {
    hide IsSpace;
  }

  lemma ColonIsNoSpace()
    ensures !IsSpace(':') && !IsSpace('"')
  {}

  lemma KeyEndIs(head: string, key: string, before: string, after: string, tail: string)
    requires AllSpace(before) && AllSpace(after) && (tail != "" ==> !IsSpace(tail[0]))
    ensures KeyEnd(Keyed(head, key, before, after, tail), key, |head|) == |head| + |key| + |before| + 1 + |after|
    ensures Keyed(head, key, before, after, tail)[|head| + |key| + |before| + 1 + |after|..] == tail
  {
    hide IsSpace, SkipSpace;
    var s := Keyed(head, key, before, after, tail);
    KeyedParts(head, key, before, after, tail);
    ColonIsNoSpace();
    var colon := |head| + |key| + |before|;
    SpaceBetween(s, |head| + |key|, before);
    SkipsTo(s, |head| + |key|, colon);
    SpaceBetween(s, colon + 1, after);
    SkipsTo(s, colon + 1, colon + 1 + |after|);
  }

  lemma KeyedParts(head: string, key: string, before: string, after: string, tail: string)
    ensures var s := Keyed(head, key, before, after, tail); var colon := |head| + |key| + |before|; var e := colon + 1 + |after|;
            && |s| == e + |tail| && s[|head|..|head| + |key|] == key && s[|head| + |key|..colon] == before && s[colon] == ':'
            && s[colon + 1..e] == after && s[e..] == tail && (tail != "" ==> s[e] == tail[0])
  {}

  lemma SpaceBetween(s: string, i: nat, white: string)
    requires AllSpace(white) && i + |white| <= |s| && s[i..i + |white|] == white
    ensures forall k | i <= k < i + |white| :: IsSpace(s[k])
  {
    hide IsSpace;
    forall k | i <= k < i + |white| ensures IsSpace(s[k]) { assert s[i..i + |white|][k - i] == s[k]; }
  }

  /** What "the name" is: for a body that has `"name" : "x"`, with any white space and no such key before it, it is `x`. */
  lemma NameValue(head: string, before: string, after: string, x: string, rest: string)
    requires AllSpace(before) && AllSpace(after) && x != "" && '"' !in x
    requires var json := Keyed(head, NAME_KEY, before, after, "\"" + x + "\"" + rest);
             forall k: nat | k < |head| :: !OccursAt(json, NAME_KEY, k)
    ensures NameOf(Keyed(head, NAME_KEY, before, after, "\"" + x + "\"" + rest)) == Some(x)
  {
    hide OccursAt, AllSpace, Keyed, IsSpace, KeyEnd;
    var tail := "\"" + x + "\"" + rest;
    var json := Keyed(head, NAME_KEY, before, after, tail);
    ColonIsNoSpace();
    KeyEndIs(head, NAME_KEY, before, after, tail);
    var e := KeyEnd(json, NAME_KEY, |head|);
    assert tail[0] == '"' && forall k | 0 <= k < |tail| :: json[e + k] == json[e..][k] == tail[k];
    QuoteCloses(json, e + 1, e + 1 + |x|);
    assert json[e + 1..e + 1 + |x|] == tail[1..1 + |x|] == x;
    assert NameAt(json, |head|) == Some(x);
    forall k: nat | k < |head| ensures NameAt(json, k) == None { NoKeyNoName(json, k); }
    assert FirstName(json, 0) == |head|;
  }

  lemma NoKeyNoName(json: string, k: nat)
    requires !OccursAt(json, NAME_KEY, k)
    ensures NameAt(json, k) == None
  {}

  lemma QuoteCloses(s: string, from: nat, close: nat)
    requires from <= close < |s| && s[close] == '"' && forall k | from <= k < close :: s[k] != '"'
    ensures Find(s, "\"", from) == close
  {
    assert s[close..close + 1] == "\"" && OccursAt(s, "\"", close);
    forall k: nat | from <= k < close ensures !OccursAt(s, "\"", k) { assert s[k..k + 1][0] == s[k]; }
  }

  /** The same for the arguments: for a body that has `"arguments" : value }` they are `value`. */
  lemma ArgumentsAre(head: string, before: string, after: string, value: string, gap: string)
    requires AllSpace(before) && AllSpace(after) && AllSpace(gap) && value != "" && Trimmed(value) && !IsSpace(value[0])
    requires var json := Keyed(head, ARGS_KEY, before, after, value + gap + "}");
             forall k: nat | k < |head| :: !OccursAt(json, ARGS_KEY, k)
    ensures FinalArgs(Keyed(head, ARGS_KEY, before, after, value + gap + "}")) == value
  {
    hide OccursAt, AllSpace, IsSpace, KeyEnd, FinalArgs, Trimmed;
    var json := Keyed(head, ARGS_KEY, before, after, value + gap + "}");
    KeyEndIs(head, ARGS_KEY, before, after, value + gap + "}");
    forall k: nat | k < |head| ensures KeyEnd(json, ARGS_KEY, k) == -1 { NoKeyNoEnd(json, ARGS_KEY, k); }
    assert FirstKey(json, ARGS_KEY, 0) == |head|;
    var top := head + ARGS_KEY + before + ":" + after;
    assert json == top + value + gap + "}";
    ArgumentsValue(top, value, gap);
  }

  lemma NoKeyNoEnd(json: string, key: string, k: nat)
    requires !OccursAt(json, key, k)
    ensures KeyEnd(json, key, k) == -1
  {}

  // ---- streams that grow ----

  /** The state and the output are those of some chunking of the text. */
  ghost predicate Streamed(isJson: string -> bool, st: State, text: string, content: string, log: seq<Delta>) {
    exists chunks :: Concat(chunks) == text && Run(INITIAL, "", chunks, isJson) == (st, content, log)
  }

  lemma {:induction false} RunAppends(st: State, text: string, chunks: seq<string>, last: string, isJson: string -> bool)
    requires |st.names| == |st.streamed|
    ensures Concat(chunks + [last]) == Concat(chunks) + last
    ensures var (st1, c1, d1) := Run(st, text, chunks, isJson);
            var (st2, c2, d2) := Step(st1, text + Concat(chunks) + last, isJson);
            Run(st, text, chunks + [last], isJson) == (st2, c1 + c2, d1 + d2)
    decreases |chunks|
  {
    hide Step;
    var (st1, c1, d1) := Run(st, text, chunks, isJson);
    var (st2, c2, d2) := Step(st1, text + Concat(chunks) + last, isJson);
    if chunks == [] {
      assert chunks + [last] == [last] && [last][1..] == [];
      assert text + "" + last == text + last && last + "" == last && "" + last == last;
      assert Run(st2, text + last, [], isJson) == (st2, "", []);
      assert c2 + "" == c2 && d2 + [] == d2 && "" + c2 == c2 && [] + d2 == d2;
    } else {
      assert (chunks + [last])[1..] == chunks[1..] + [last];
      var now := text + chunks[0];
      var (st3, c3, d3) := Step(st, now, isJson);
      var (_, c4, d4) := Run(st3, now, chunks[1..], isJson);
      RunAppends(st3, now, chunks[1..], last, isJson);
      assert now + Concat(chunks[1..]) + last == text + Concat(chunks) + last;
      assert c3 + (c4 + c2) == c3 + c4 + c2 && d3 + (d4 + d2) == d3 + d4 + d2;
    }
  }

  lemma StreamedStart(isJson: string -> bool)
    ensures Streamed(isJson, INITIAL, "", "", [])
  {
    assert Concat([]) == "" && Run(INITIAL, "", [], isJson) == (INITIAL, "", []);
  }

  lemma StreamedStep(isJson: string -> bool, st: State, text: string, now: string, content: string, log: seq<Delta>)
    requires Streamed(isJson, st, text, content, log) && text <= now && |st.names| == |st.streamed|
    ensures var (st', c, d) := Step(st, now, isJson); Streamed(isJson, st', now, content + c, log + d)
  {
    hide Run, Step;
    var chunks :| Concat(chunks) == text && Run(INITIAL, "", chunks, isJson) == (st, content, log);
    RunAppends(INITIAL, "", chunks, now[|text|..], isJson);
    assert "" + text + now[|text|..] == now;
  }

  // ---- the parser object ----

  /** `(json, is_complete)` for each region. */
  function Jsons(regions: seq<Region>, isJson: string -> bool): (r: seq<(string, bool)>)
    ensures |r| == |regions|
    ensures forall i | 0 <= i < |r| :: r[i] == (regions[i].json, CompleteBody(regions[i], isJson))
  {
    if regions == [] then []
    else [(regions[0].json, CompleteBody(regions[0], isJson))] + Jsons(regions[1..], isJson)
  }

  lemma JsonsCons(r: Region, rest: seq<Region>, isJson: string -> bool)
    ensures Jsons([], isJson) == []
    ensures Jsons([r] + rest, isJson) == [(r.json, CompleteBody(r, isJson))] + Jsons(rest, isJson)
  {}

  /** What one round of the search over the text adds. */
  lemma JsonsUnfold(text: string, pos: nat, isJson: string -> bool)
    requires pos <= |text|
    ensures Find(text, START, pos) == -1 ==> Jsons(Regions(text, pos), isJson) == []
    ensures Find(text, START, pos) != -1 ==>
              var start := Find(text, START, pos) + |START|; var end := Find(text, END, start);
              && start <= |text|
              && (if end != -1 then
                    && end + |END| <= |text|
                    && Jsons(Regions(text, pos), isJson) ==
                         [(Strip(text[start..end]), true)] + Jsons(Regions(text, end + |END|), isJson)
                  else
                    var raw := text[start..]; var json := Strip(raw[..|raw| - PartialTagOverlap(raw, END)]);
                    Jsons(Regions(text, pos), isJson) == [(json, json != "" && isJson(json))])
  {
    hide Find, Strip, Regions, Jsons, PartialTagOverlap, OccursAt, EndsWithPartial, RegionAt;
    RegionsUnfold(text, pos);
    if Find(text, START, pos) == -1 {
      JsonsCons(Region("", false), [], isJson);
    } else {
      FindFits(text, START, pos);
      var start := Find(text, START, pos) + |START|;
      FindFits(text, END, start);
      JsonsCons(RegionAt(text, start), Later(text, start), isJson);
      OpenRegion(text, start);
    }
  }

  lemma OpenRegion(text: string, start: nat)
    requires start <= |text|
    ensures Find(text, END, start) == -1 ==>
              var raw := text[start..]; RegionAt(text, start) == Region(Strip(raw[..|raw| - PartialTagOverlap(raw, END)]), false)
    ensures Find(text, END, start) != -1 ==>
              Find(text, END, start) <= |text| && RegionAt(text, start) == Region(Strip(text[start..Find(text, END, start)]), true)
  {
    hide Find, Strip, PartialTagOverlap, OccursAt, EndsWithPartial, Trimmed;
    var raw := text[start..];
    FindFits(text, END, start);
    if Find(text, END, start) == -1 { OpenSlice(text, start, PartialTagOverlap(raw, END)) by { PartialFits(raw, END); } }
  }

  lemma PartialFits(text: string, tag: string)
    requires 0 < |tag|
    ensures PartialTagOverlap(text, tag) <= |text|
  {}

  lemma OpenSlice(text: string, start: nat, held: nat)
    requires start <= |text| && held <= |text| - start
    ensures text[start..|text| - held] == text[start..][..|text[start..]| - held]
  {}

  class Hermes2ProToolParser {
    const isJson: string -> bool
    var sentContentIdx: nat
    var prevToolCallArr: seq<Option<string>>
    var streamedArgsForTool: seq<string>

    function Abs(): State
      reads this
    {
      State(sentContentIdx, prevToolCallArr, streamedArgsForTool)
    }

    constructor (isJson: string -> bool)
      ensures Abs() == INITIAL && this.isJson == isJson
    {
      this.isJson := isJson;
      sentContentIdx, prevToolCallArr, streamedArgsForTool := 0, [], [];
    }

    method ExtractContent(text: string) returns (content: Option<string>)
      modifies this`sentContentIdx
      ensures var (st, sent) := Content(old(Abs()), text);
              Abs() == st && content == (if sent == "" then None else Some(sent))
    {
      var sendable: nat;
      var at := Find(text, START, 0);
      if at == -1 {
        sendable := |text| - PartialTagOverlap(text, START);
      } else {
        sendable := at;
      }
      content := None;
      if sendable > sentContentIdx {
        content := Some(text[sentContentIdx..sendable]);
        sentContentIdx := sendable;
      }
    }

    method ExtractToolCallJsons(text: string) returns (results: seq<(string, bool)>)
      ensures results == Jsons(Regions(text, 0), isJson)
    {
      hide Find, Strip, Regions, Jsons, PartialTagOverlap, RegionAt, OccursAt, EndsWithPartial;
      results := [];
      var pos := 0;
      while true
        invariant pos <= |text|
        invariant results + Jsons(Regions(text, pos), isJson) == Jsons(Regions(text, 0), isJson)
        decreases |text| - pos
      {
        var start := Find(text, START, pos);
        JsonsUnfold(text, pos, isJson);
        if start == -1 {
          break;
        }
        var jsonStart := start + |START|;
        var jsonEnd := Find(text, END, jsonStart);
        if jsonEnd != -1 {
          results := results + [(Strip(text[jsonStart..jsonEnd]), true)];
          pos := jsonEnd + |END|;
        } else {
          var raw := text[jsonStart..];
          var overlap := PartialTagOverlap(raw, END);
          PartialFits(raw, END);
          assert raw[..|raw|] == raw;
          if overlap > 0 { raw := raw[..|raw| - overlap]; }
          var json := Strip(raw);
          results := results + [(json, json != "" && isJson(json))];
          break;
        }
      }
    }

    method ComputeArgsDiff(i: nat, json: string, complete: bool) returns (diff: Option<string>)
      requires i < |streamedArgsForTool|
      modifies this`streamedArgsForTool
      ensures var (st, d) := ArgsDiff(old(Abs()), i, json, complete);
              Abs() == st && d == (if diff == None then [] else [Args(i, diff.value)])
    {
      var args := ArgsOf(json, complete);
      if args == None || |args.value| <= |streamedArgsForTool[i]| {
        return None;
      }
      diff := Some(args.value[|streamedArgsForTool[i]|..]);
      streamedArgsForTool := streamedArgsForTool[i := args.value];
    }

    /** One round of the loop over the regions; `ready` is false when the loop must stop here. */
    method StreamTool(i: nat, json: string, complete: bool) returns (ready: bool, deltas: seq<Delta>)
      requires i <= |prevToolCallArr| == |streamedArgsForTool|
      modifies this`prevToolCallArr, this`streamedArgsForTool
      ensures var (st1, header) := Header(Enter(old(Abs()), i), i, json);
              && ready == (st1.names[i] != None)
              && (!ready ==> Abs() == st1 && deltas == [])
              && (ready ==> var (st2, args) := ArgsDiff(st1, i, json, complete);
                            Abs() == st2 && deltas == header + args)
    {
      hide ArgsOf, NameOf;
      deltas := [];
      if i >= |prevToolCallArr| {
        prevToolCallArr := prevToolCallArr + [None];
        streamedArgsForTool := streamedArgsForTool + [""];
      }
      if prevToolCallArr[i] == None {
        var name := NameOf(json);
        if name == None {
          return false, [];
        }
        prevToolCallArr := prevToolCallArr[i := name];
        deltas := [Name(i, name.value)];
      }
      assert Abs() == Header(Enter(old(Abs()), i), i, json).0;
      var diff := ComputeArgsDiff(i, json, complete);
      ready := true;
      if diff != None {
        deltas := deltas + [Args(i, diff.value)];
      }
    }

    method ExtractToolCallsStreaming(text: string) returns (content: Option<string>, deltas: seq<Delta>)
      requires |prevToolCallArr| == |streamedArgsForTool|
      modifies this
      ensures var (st, sent, emitted) := Step(old(Abs()), text, isJson);
              Abs() == st && content == (if sent == "" then None else Some(sent)) && deltas == emitted
    {
      hide Regions, Header, ArgsDiff, Content, Jsons, CompleteBody, Tools, Enter;
      content := ExtractContent(text);
      var jsons := ExtractToolCallJsons(text);
      deltas := StreamTools(jsons, Regions(text, 0));
    }

    /** The loop over the regions. */
    method StreamTools(jsons: seq<(string, bool)>, ghost regions: seq<Region>) returns (deltas: seq<Delta>)
      requires |prevToolCallArr| == |streamedArgsForTool| && jsons == Jsons(regions, isJson)
      modifies this`prevToolCallArr, this`streamedArgsForTool
      ensures (Abs(), deltas) == Tools(old(Abs()), regions, 0, isJson)
    {
      hide Header, ArgsDiff, Jsons, CompleteBody, Tools, Enter;
      ghost var all := Tools(Abs(), regions, 0, isJson);
      deltas := [];
      var i := 0;
      while i < |jsons|
        invariant 0 <= i <= |jsons| == |regions|
        invariant i <= |prevToolCallArr| == |streamedArgsForTool|
        invariant var (st, rest) := Tools(Abs(), regions, i, isJson); st == all.0 && deltas + rest == all.1
      {
        ToolsHead(Abs(), regions, i, isJson);
        var ready, emitted := StreamTool(i, jsons[i].0, jsons[i].1);
        assert deltas + [] == deltas;
        if !ready {
          return;
        }
        ghost var rest := Tools(Abs(), regions, i + 1, isJson).1;
        assert deltas + (emitted + rest) == deltas + emitted + rest;
        deltas := deltas + emitted;
        i := i + 1;
      }
      ToolsDone(Abs(), regions, isJson);
      assert deltas + [] == deltas;
    }
  }
}
