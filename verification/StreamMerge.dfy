/** The merge of streamed tool-call deltas into the tool calls that are stored: `_merge_stream_tool_calls`. */
module StreamMerge {
  import opened Text
  import Hermes = HermesParser

  /** One delta as a dictionary; an absent key is None, and an empty dictionary has no key at all. */
  datatype Item = Item(index: Option<nat>, id: Option<string>, kind: Option<string>, name: Option<string>, arguments: Option<string>)

  datatype ToolCall = ToolCall(id: string, kind: string, name: string, arguments: string)

  const EMPTY_ITEM := Item(None, None, None, None, None)

  function OrElse(o: Option<string>, other: string): string {
    match o case None => other case Some(s) => s
  }

  function IndexOf(item: Item): nat {
    match item.index case None => 0 case Some(i) => i
  }

  /** A value that is absent or empty changes nothing. */
  function Replace(was: string, o: Option<string>): string {
    if o.Some? && o.value != "" then o.value else was
  }

  // ---- what the merge means ----

  function About(items: seq<Item>, i: nat): seq<Item> {
    if items == [] then []
    else if items[0] != EMPTY_ITEM && IndexOf(items[0]) == i then [items[0]] + About(items[1..], i)
    else About(items[1..], i)
  }

  /** All argument fragments, in order. */
  function Arguments(items: seq<Item>): string {
    if items == [] then "" else OrElse(items[0].arguments, "") + Arguments(items[1..])
  }

  /** The last value that is not empty, or `start`. */
  function LastName(items: seq<Item>, start: string): string {
    if items == [] then start else LastName(items[1..], Replace(start, items[0].name))
  }

  function LastId(items: seq<Item>, start: string): string {
    if items == [] then start else LastId(items[1..], Replace(start, items[0].id))
  }

  function LastKind(items: seq<Item>, start: string): string {
    if items == [] then start else LastKind(items[1..], Replace(start, items[0].kind))
  }

  /** The tool call that the deltas of one index describe. */
  function Described(items: seq<Item>): ToolCall
    requires items != []
  {
    ToolCall(LastId(items, OrElse(items[0].id, "")), LastKind(items, OrElse(items[0].kind, "function")),
             LastName(items, ""), Arguments(items))
  }

  lemma {:induction false} AboutAppend(items: seq<Item>, item: Item, i: nat)
    ensures About(items + [item], i) == About(items, i) + if item != EMPTY_ITEM && IndexOf(item) == i then [item] else []
  {
    if items == [] {
      assert [item][1..] == [];
    } else {
      assert (items + [item])[1..] == items[1..] + [item];
      AboutAppend(items[1..], item, i);
    }
  }

  lemma {:induction false} FieldsAppend(items: seq<Item>, item: Item, start: string)
    ensures LastName(items + [item], start) == Replace(LastName(items, start), item.name)
    ensures LastId(items + [item], start) == Replace(LastId(items, start), item.id)
    ensures LastKind(items + [item], start) == Replace(LastKind(items, start), item.kind)
    decreases |items|
  {
    hide Replace;
    if items == [] {
      assert [item][1..] == [];
    } else {
      assert (items + [item])[1..] == items[1..] + [item];
      FieldsAppend(items[1..], item, Replace(start, items[0].name));
      FieldsAppend(items[1..], item, Replace(start, items[0].id));
      FieldsAppend(items[1..], item, Replace(start, items[0].kind));
    }
  }

  lemma {:induction false} ArgumentsAppend(items: seq<Item>, item: Item)
    ensures Arguments(items + [item]) == Arguments(items) + OrElse(item.arguments, "")
  {
    hide OrElse;
    if items == [] {
      assert [item][1..] == [];
      assert OrElse(item.arguments, "") + "" == "" + OrElse(item.arguments, "");
    } else {
      assert (items + [item])[1..] == items[1..] + [item];
      ArgumentsAppend(items[1..], item);
    }
  }

  /** One more delta changes the call it belongs to, or starts one. */
  function Merged(call: ToolCall, item: Item): ToolCall {
    ToolCall(Replace(call.id, item.id), Replace(call.kind, item.kind), Replace(call.name, item.name),
             call.arguments + OrElse(item.arguments, ""))
  }

  function Fresh(item: Item): ToolCall {
    ToolCall(OrElse(item.id, ""), OrElse(item.kind, "function"), "", "")
  }

  lemma DescribedAppend(items: seq<Item>, item: Item)
    ensures Described(items + [item]) == Merged(if items == [] then Fresh(item) else Described(items), item)
  {
    hide Replace, OrElse, LastName, LastId, LastKind, Arguments;
    var start := (items + [item])[0];
    FieldsAppend(items, item, "");
    FieldsAppend(items, item, OrElse(start.id, ""));
    FieldsAppend(items, item, OrElse(start.kind, "function"));
    ArgumentsAppend(items, item);
    NoItems();
  }

  lemma NoItems()
    ensures forall start :: LastName([], start) == LastId([], start) == LastKind([], start) == start
    ensures Arguments([]) == ""
  {}

  // ---- the loop ----

  ghost predicate MergeOf(items: seq<Item>, order: seq<nat>, merged: map<nat, ToolCall>) {
    && (forall i :: i in merged <==> About(items, i) != [])
    && (forall i | i in merged :: merged[i] == Described(About(items, i)))
    && (forall i :: i in merged <==> i in order)
    && (forall j, k | 0 <= j < k < |order| :: order[j] != order[k])
  }

  lemma MergeOneMore(items: seq<Item>, item: Item, order: seq<nat>, merged: map<nat, ToolCall>)
    requires MergeOf(items, order, merged) && item != EMPTY_ITEM
    ensures var i := IndexOf(item);
            var call := Merged(if i in merged then merged[i] else Fresh(item), item);
            MergeOf(items + [item], if i in merged then order else order + [i], merged[i := call])
  {
    hide About, Described, Merged, Fresh;
    var at := IndexOf(item);
    forall i ensures About(items + [item], i) == About(items, i) + if i == at then [item] else [] {
      AboutAppend(items, item, i);
    }
    DescribedAppend(About(items, at), item);
    assert forall i | i != at :: About(items, i) + [] == About(items, i);
  }

  lemma MergeSkips(items: seq<Item>, order: seq<nat>, merged: map<nat, ToolCall>)
    requires MergeOf(items, order, merged)
    ensures MergeOf(items + [EMPTY_ITEM], order, merged)
  {
    hide About, Described;
    forall i ensures About(items + [EMPTY_ITEM], i) == About(items, i) { AboutAppend(items, EMPTY_ITEM, i); }
  }

  /** The merge: one call per index, in the order of first appearance, with the last id, type and name and all the
      argument text of its deltas. */
  method MergeStreamToolCalls(items: seq<Item>) returns (order: seq<nat>, calls: map<nat, ToolCall>)
    ensures MergeOf(items, order, calls)
  {
    hide MergeOf, About;
    order, calls := [], map[];
    Nothing();
    for k := 0 to |items|
      invariant MergeOf(items[..k], order, calls)
    {
      var item := items[k];
      assert items[..k + 1] == items[..k] + [item];
      if item == EMPTY_ITEM {
        MergeSkips(items[..k], order, calls);
        assert items[..k + 1] == items[..k] + [EMPTY_ITEM];
        continue;
      }
      MergeOneMore(items[..k], item, order, calls);
      var idx := IndexOf(item);
      var call := Fresh(item);
      if idx !in calls {
        order := order + [idx];
      } else {
        call := calls[idx];
      }
      assert call.arguments + "" == call.arguments;
      if item.id.Some? && item.id.value != "" { call := call.(id := item.id.value); }
      if item.kind.Some? && item.kind.value != "" { call := call.(kind := item.kind.value); }
      if item.name.Some? && item.name.value != "" { call := call.(name := item.name.value); }
      if item.arguments.Some? && item.arguments.value != "" { call := call.(arguments := call.arguments + item.arguments.value); }
      calls := calls[idx := call];
    }
    assert items[..|items|] == items;
  }

  lemma Nothing()
    ensures MergeOf([], [], map[])
  {}

  // ---- merging what the Hermes parser streams ----

  /** The dictionaries of the deltas; a header carries a new id. */
  function ItemsOf(log: seq<Hermes.Delta>, ids: nat -> string): seq<Item> {
    if log == [] then []
    else
      [match log[0]
       case Name(i, name) => Item(Some(i), Some(ids(i)), Some("function"), Some(name), None)
       case Args(i, fragment) => Item(Some(i), None, None, None, Some(fragment))]
      + ItemsOf(log[1..], ids)
  }

  lemma {:induction false} MergedArguments(log: seq<Hermes.Delta>, ids: nat -> string, i: nat)
    ensures Arguments(About(ItemsOf(log, ids), i)) == Hermes.ArgsFor(log, i)
  {
    if log != [] { MergedArguments(log[1..], ids, i); }
  }

  lemma {:induction false} MergedName(log: seq<Hermes.Delta>, ids: nat -> string, i: nat, start: string)
    ensures var names := Hermes.NamesFor(log, i);
            |names| <= 1 ==> LastName(About(ItemsOf(log, ids), i), start) == if names == [] || names[0] == "" then start else names[0]
    ensures Hermes.NamesFor(log, i) != [] ==> About(ItemsOf(log, ids), i) != []
    decreases |log|
  {
    if log != [] {
      var now := if log[0].Name? && log[0].index == i then Replace(start, Some(log[0].name)) else start;
      MergedName(log[1..], ids, i, now);
    }
  }

  /** The stored form of a finished call has the name and the argument text of its body, however the text was cut
      into deltas. */
  lemma StoredCallIsParsed(chunks: seq<string>, i: nat, isJson: string -> bool, ids: nat -> string)
    requires Hermes.FinishedCall(Hermes.Concat(chunks), i, isJson)
    ensures var json := Hermes.Regions(Hermes.Concat(chunks), 0)[i].json;
            var items := About(ItemsOf(Hermes.Run(Hermes.INITIAL, "", chunks, isJson).2, ids), i);
            && items != [] && Described(items).arguments == Hermes.FinalArgs(json)
            && Described(items).name == Hermes.NameOf(json).value
  {
    hide Hermes.Run, Hermes.Regions, Hermes.FinalArgs, Hermes.NameOf, Hermes.FinishedCall, About, ItemsOf;
    Hermes.ArgumentsAreExact(chunks, i, isJson);
    var log := Hermes.Run(Hermes.INITIAL, "", chunks, isJson).2;
    MergedArguments(log, ids, i);
    MergedName(log, ids, i, "");
  }
}
