/** What the parameters of a Qwen3-Coder call are, read off the text that spells them. */
module Qwen3CoderValues {
  import opened Text
  import opened Qwen3CoderParser

  /** A value as it may stand in the text: with or without a newline on either side, which is then not part of it. */
  function Spelled(lead: bool, value: string, trail: bool): string {
    (if lead then "\n" else "") + value + (if trail then "\n" else "")
  }

  /** The spelling is unambiguous: without a newline of its own at an end, the value has none there. */
  ghost predicate Unambiguous(lead: bool, value: string, trail: bool) {
    && (!lead ==> (value == "" && !trail) || (value != "" && value[0] != '\n'))
    && (!trail ==> value == "" || value[|value| - 1] != '\n')
  }

  lemma NewlinesDropped(lead: bool, value: string, trail: bool)
    requires Unambiguous(lead, value, trail)
    ensures var s := Spelled(lead, value, trail);
            DropNewline(if s != "" && s[0] == '\n' then s[1..] else s) == value
  {
    var s := Spelled(lead, value, trail);
    var t := value + (if trail then "\n" else "");
    assert lead ==> s[1..] == t;
    assert !lead ==> s == t;
    assert trail ==> t[..|t| - 1] == value;
    assert !trail ==> t == value;
  }

  /** Non-streaming: a match is the name, `>` and the spelled value. */
  lemma PairIs(name: string, lead: bool, value: string, trail: bool)
    requires '>' !in name && Unambiguous(lead, value, trail)
    ensures ParsePair(name + ">" + Spelled(lead, value, trail)) == Some(Pair(name, value))
  {
    hide DropNewline, Spelled;
    var spelled := Spelled(lead, value, trail);
    var m := name + ">" + spelled;
    FirstGt(name, spelled);
    assert m[..|name|] == name && m[|name| + 1..] == spelled;
    NewlinesDropped(lead, value, trail);
  }

  lemma FirstGt(name: string, rest: string)
    requires '>' !in name
    ensures Find(name + ">" + rest, ">", 0) == |name|
  {
    var m := name + ">" + rest;
    assert m[|name|..|name| + 1] == ">" && OccursAt(m, ">", |name|);
    forall k: nat | k < |name| ensures !OccursAt(m, ">", k) { assert m[k..k + 1][0] == name[k]; }
  }

  /** A parameter in the text of a call. */
  function Parameter(name: string, spelled: string): string {
    PARAMETER + (name + ">" + (spelled + PARAMETER_END))
  }

  lemma ParameterParts(before: string, name: string, spelled: string, after: string)
    ensures var tool := before + Parameter(name, spelled) + after; var start := |before| + |PARAMETER|; var gt := start + |name|;
            && gt + 1 + |spelled| < |tool| && tool[start..] == name + ">" + (spelled + PARAMETER_END + after) && tool[start..gt] == name
            && tool[gt + 1..] == spelled + PARAMETER_END + after && tool[gt + 1..gt + 1 + |spelled|] == spelled
            && tool[gt + 1] == if spelled == "" then '<' else spelled[0]
  {}

  /** Streaming: a closed parameter anywhere in the call is read as its name and its value. */
  lemma ParameterIs(before: string, name: string, lead: bool, value: string, trail: bool, after: string)
    requires '>' !in name && Unambiguous(lead, value, trail)
    requires Find(Spelled(lead, value, trail) + PARAMETER_END, PARAMETER_END, 0) == |Spelled(lead, value, trail)|
    ensures ParamAt(before + Parameter(name, Spelled(lead, value, trail)) + after, |before|) == Some(Pair(name, value))
  {
    hide DropNewline, Spelled, Find, OccursAt, Parameter, Unambiguous;
    var spelled := Spelled(lead, value, trail);
    var tool := before + Parameter(name, spelled) + after;
    var start, gt := |before| + |PARAMETER|, |before| + |PARAMETER| + |name|;
    var close := gt + 1 + |spelled|;
    ParameterParts(before, name, spelled, after);
    FirstGt(name, spelled + PARAMETER_END + after);
    FindInSuffix(tool, ">", start, 0);
    FindInExtension(spelled + PARAMETER_END, spelled + PARAMETER_END + after, PARAMETER_END, 0);
    FindInSuffix(tool, PARAMETER_END, gt + 1, 0);
    var from := ValueStart(tool, gt);
    FindFromLater(tool, PARAMETER_END, gt + 1, from);
    assert ValueEnd(tool, from) == close;
    ValueSlice(tool, gt, spelled);
    NewlinesDropped(lead, value, trail);
  }

  lemma ValueSlice(tool: string, gt: nat, spelled: string)
    requires gt + 1 + |spelled| < |tool| && tool[gt + 1..gt + 1 + |spelled|] == spelled
    requires tool[gt + 1] == if spelled == "" then '<' else spelled[0]
    ensures var from := ValueStart(tool, gt);
            from <= gt + 1 + |spelled| && tool[from..gt + 1 + |spelled|] == if spelled != "" && spelled[0] == '\n' then spelled[1..] else spelled
  {}

  /** Both parsers read a spelled parameter alike. */
  lemma BothReadAlike(before: string, name: string, lead: bool, value: string, trail: bool, after: string)
    requires '>' !in name && Unambiguous(lead, value, trail)
    requires Find(Spelled(lead, value, trail) + PARAMETER_END, PARAMETER_END, 0) == |Spelled(lead, value, trail)|
    ensures ParamAt(before + Parameter(name, Spelled(lead, value, trail)) + after, |before|) ==
            ParsePair(name + ">" + Spelled(lead, value, trail))
  {
    hide Spelled, Find, Unambiguous;
    ParameterIs(before, name, lead, value, trail, after);
    PairIs(name, lead, value, trail);
  }

  /** Where a value without an end tag of its own ends: at the first tag that opens the next parameter or ends the function,
      and only without one at the end of the call. */
  lemma OpenValueEnds(tool: string, from: nat)
    requires Find(tool, PARAMETER_END, from) == -1
    ensures var r := ValueEnd(tool, from);
            if r == -1 then forall i: nat | from <= i :: !OccursAt(tool, PARAMETER, i) && !OccursAt(tool, FUNCTION_END, i) && !OccursAt(tool, CALL_END, i)
            else
              && (forall i: nat | from <= i < r :: !OccursAt(tool, PARAMETER, i) && !OccursAt(tool, FUNCTION_END, i))
              && (OccursAt(tool, PARAMETER, r) || OccursAt(tool, FUNCTION_END, r)
                  || (OccursAt(tool, CALL_END, r) && forall i: nat | from <= i :: !OccursAt(tool, PARAMETER, i) && !OccursAt(tool, FUNCTION_END, i)))
  {
    hide OccursAt;
  }

  /** A match of the parameter pattern may stop here: at a tag, at the end of the text, or before a final newline. */
  predicate StopsAt(text: string, i: nat) {
    || i == |text| || (i < |text| && text[i..] == "\n")
    || OccursAt(text, PARAMETER_END, i) || OccursAt(text, PARAMETER, i) || OccursAt(text, FUNCTION_END, i)
  }

  /** It stops at the first such position. */
  lemma {:induction false} MatchStopsFirst(text: string, from: nat)
    requires from <= |text|
    ensures StopsAt(text, MatchEnd(text, from)) && forall i | from <= i < MatchEnd(text, from) :: !StopsAt(text, i)
    decreases |text| - from
  {
    hide OccursAt;
    assert text[from..] == "\n" <==> from + 1 == |text| && text[from] == '\n';
    if from < |text| && !StopsAt(text, from) { MatchStopsFirst(text, from + 1); }
  }
}
