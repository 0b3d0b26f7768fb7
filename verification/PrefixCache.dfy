/** Token-in token-out sessions: the prompt of a turn reuses the stored ids of the longest earlier
    conversation it continues, and the turn is stored for the next one. */
module PrefixCache {
  import opened Text

  /** A tokenizer; decoding goes token by token. */
  datatype Tokenizer = Tokenizer(encode: string -> seq<int>, piece: int -> string)

  function Decode(t: Tokenizer, ids: seq<int>): string {
    if ids == [] then "" else t.piece(ids[0]) + Decode(t, ids[1..])
  }

  lemma {:induction false} DecodeAppends(t: Tokenizer, a: seq<int>, b: seq<int>)
    ensures Decode(t, a + b) == Decode(t, a) + Decode(t, b)
  {
    if a == [] {
      assert a + b == b;
    } else {
      assert (a + b)[1..] == a[1..] + b;
      DecodeAppends(t, a[1..], b);
    }
  }

  /** `full_conversation_text` and `full_conversation_token_ids` of a stored request. */
  datatype Record = Record(text: string, ids: Option<seq<int>>)

  /** `len(ids or [])`. */
  function Length(r: Record): nat {
    if r.ids == None then 0 else |r.ids.value|
  }

  function Ids(r: Record): seq<int> {
    if r.ids == None then [] else r.ids.value
  }

  predicate Matches(text: string, r: Record) {
    r.text != "" && r.text <= text
  }

  // ---- the longest match ----

  function InsertDescending(rs: seq<Record>, r: Record): seq<Record> {
    if rs == [] then [r]
    else if Length(rs[0]) >= Length(r) then [rs[0]] + InsertDescending(rs[1..], r)
    else [r] + rs
  }

  /** `sorted(..., reverse=True)`: by length, equal ones in their old order. */
  function SortDescending(rs: seq<Record>): seq<Record> {
    if rs == [] then [] else InsertDescending(SortDescending(rs[..|rs| - 1]), rs[|rs| - 1])
  }

  function FirstMatch(text: string, rs: seq<Record>): (r: Option<Record>)
    ensures r != None ==> Matches(text, r.value)
  {
    if rs == [] then None else if Matches(text, rs[0]) then Some(rs[0]) else FirstMatch(text, rs[1..])
  }

  /** Record `i` matches, is as long as any matching record, and longer than the matching ones before it. */
  ghost predicate BestAt(text: string, rs: seq<Record>, i: int) {
    && 0 <= i < |rs| && Matches(text, rs[i])
    && forall j | 0 <= j < |rs| && Matches(text, rs[j]) ::
         Length(rs[j]) <= Length(rs[i]) && (j < i ==> Length(rs[j]) < Length(rs[i]))
  }

  ghost predicate Descending(rs: seq<Record>) {
    forall i, j | 0 <= i < j < |rs| :: Length(rs[i]) >= Length(rs[j])
  }

  lemma {:induction false} InsertKeepsAll(rs: seq<Record>, r: Record)
    ensures multiset(InsertDescending(rs, r)) == multiset(rs) + multiset{r}
  {
    hide Length;
    if rs != [] {
      InsertKeepsAll(rs[1..], r);
      assert rs == [rs[0]] + rs[1..];
    }
  }

  lemma {:induction false} InsertSorts(rs: seq<Record>, r: Record)
    requires Descending(rs)
    ensures Descending(InsertDescending(rs, r))
    ensures multiset(InsertDescending(rs, r)) == multiset(rs) + multiset{r}
  {
    hide Length;
    InsertKeepsAll(rs, r);
    if rs != [] && Length(rs[0]) >= Length(r) {
      InsertSorts(rs[1..], r);
      InsertKeepsAll(rs[1..], r);
      var tail := InsertDescending(rs[1..], r);
      forall j | 0 <= j < |tail| ensures Length(tail[j]) <= Length(rs[0]) {
        assert tail[j] in multiset(tail);
        assert tail[j] == r || tail[j] in rs[1..];
      }
    }
  }

  lemma {:induction false} SortSorts(rs: seq<Record>)
    ensures Descending(SortDescending(rs)) && multiset(SortDescending(rs)) == multiset(rs)
  {
    if rs != [] {
      var init := rs[..|rs| - 1];
      SortSorts(init);
      InsertSorts(SortDescending(init), rs[|rs| - 1]);
      assert rs == init + [rs[|rs| - 1]];
    }
  }

  /** Sorting one more record in changes the first match only if the record matches and is longer. */
  lemma {:induction false} InsertMatch(text: string, rs: seq<Record>, r: Record)
    requires Descending(rs)
    ensures var before, now := FirstMatch(text, rs), FirstMatch(text, InsertDescending(rs, r));
            now == if Matches(text, r) && (before == None || Length(before.value) < Length(r)) then Some(r) else before
  {
    if rs != [] && Length(rs[0]) >= Length(r) {
      assert InsertDescending(rs, r)[1..] == InsertDescending(rs[1..], r);
      InsertMatch(text, rs[1..], r);
      MatchBelow(text, rs[1..]);
    } else if rs != [] {
      assert ([r] + rs)[1..] == rs;
      MatchBelow(text, rs);
    }
  }

  lemma {:induction false} MatchBelow(text: string, rs: seq<Record>)
    requires Descending(rs)
    ensures FirstMatch(text, rs) != None ==> Length(FirstMatch(text, rs).value) <= Length(rs[0])
  {
    if rs != [] && !Matches(text, rs[0]) { MatchBelow(text, rs[1..]); }
  }

  lemma BestOfOneMore(text: string, rs: seq<Record>, r: Record, i: int)
    ensures (forall j | 0 <= j < |rs| :: !Matches(text, rs[j])) && Matches(text, r) ==> BestAt(text, rs + [r], |rs|)
    ensures BestAt(text, rs, i) && Matches(text, r) && Length(rs[i]) < Length(r) ==> BestAt(text, rs + [r], |rs|)
    ensures BestAt(text, rs, i) && !(Matches(text, r) && Length(rs[i]) < Length(r)) ==> BestAt(text, rs + [r], i)
  {
    hide Matches, Length;
  }

  /** Sorting and scanning finds the first of the longest matching records, or that there is none. */
  lemma {:induction false} LongestMatch(text: string, rs: seq<Record>)
    ensures var found := FirstMatch(text, SortDescending(rs));
            && (found == None ==> forall i | 0 <= i < |rs| :: !Matches(text, rs[i]))
            && (found != None ==> exists i :: BestAt(text, rs, i) && rs[i] == found.value)
  {
    if rs != [] {
      var init, r := rs[..|rs| - 1], rs[|rs| - 1];
      assert rs == init + [r];
      LongestMatch(text, init);
      SortSorts(init);
      InsertMatch(text, SortDescending(init), r);
      var before := FirstMatch(text, SortDescending(init));
      hide FirstMatch, SortDescending, Matches, Length, BestAt;
      if before == None {
        BestOfOneMore(text, init, r, 0);
      } else {
        var i :| BestAt(text, init, i) && init[i] == before.value;
        BestOfOneMore(text, init, r, i);
      }
    }
  }

  // ---- encoding ----

  /** The ids of `encode_with_cache`; no history stands for a request without a session. */
  function PrefixEncoding(t: Tokenizer, text: string, history: Option<seq<Record>>): seq<int> {
    if history == None then t.encode(text)
    else
      match FirstMatch(text, SortDescending(history.value))
      case None => t.encode(text)
      case Some(r) =>
        var rest := text[|r.text|..];
        if rest == "" then Ids(r) else Ids(r) + t.encode(rest)
  }

  /** Encoding is a right inverse of decoding. */
  ghost predicate RoundTrips(t: Tokenizer) {
    forall text :: Decode(t, t.encode(text)) == text
  }

  /** The stored ids decode to the stored text. */
  ghost predicate Consistent(t: Tokenizer, r: Record) {
    r.ids != None && Decode(t, r.ids.value) == r.text
  }

  lemma EncodeDecodes(t: Tokenizer, text: string, history: Option<seq<Record>>)
    requires RoundTrips(t)
    requires history != None ==> forall i | 0 <= i < |history.value| :: Consistent(t, history.value[i])
    ensures Decode(t, PrefixEncoding(t, text, history)) == text
  {
    if history != None {
      LongestMatch(text, history.value);
      var found := FirstMatch(text, SortDescending(history.value));
      if found != None {
        var r := found.value;
        var i :| BestAt(text, history.value, i) && history.value[i] == r;
        assert Consistent(t, r) && Matches(text, r);
        var rest := text[|r.text|..];
        assert r.text + rest == text;
        DecodeAppends(t, Ids(r), t.encode(rest));
      }
    }
  }

  // ---- what a turn stores ----

  /** What the backend returned: token ids, or text without ids. */
  datatype Reply = Reply(ids: Option<seq<int>>, text: string)

  function ReplyIds(reply: Reply): seq<int> {
    if reply.ids == None then [] else reply.ids.value
  }

  /** The response text that is stored: decoded from the ids when there are any. */
  function ReplyText(t: Tokenizer, reply: Reply): string {
    if ReplyIds(reply) != [] then Decode(t, ReplyIds(reply)) else reply.text
  }

  /** `_build_response` for a non-streaming turn, and `_finalize_stream` for a streaming one. */
  function StoredRecord(t: Tokenizer, prompt: string, ids: seq<int>, reply: Reply, streamed: bool): Record {
    var both := ids + ReplyIds(reply);
    Record(prompt + ReplyText(t, reply),
           if ids != [] && ReplyIds(reply) != [] then Some(both) else if streamed then None else Some(ids))
  }

  /** A stored record is consistent exactly when ids came back for a prompt with ids, or when a
      non-streaming turn had no response text to lose. */
  lemma StoredIsConsistentIff(t: Tokenizer, prompt: string, ids: seq<int>, reply: Reply, streamed: bool)
    requires Decode(t, ids) == prompt
    ensures Consistent(t, StoredRecord(t, prompt, ids, reply, streamed)) <==>
              (ids != [] && ReplyIds(reply) != []) || (!streamed && ReplyText(t, reply) == "")
  {
    DecodeAppends(t, ids, ReplyIds(reply));
    assert prompt + "" == prompt;
  }

  // ---- sessions ----

  /** One request of a session. */
  datatype Turn = Turn(prompt: string, reply: Reply, streamed: bool)

  /** The records of the session after the first `n` turns, newest first, as the query orders them. */
  function History(t: Tokenizer, turns: seq<Turn>, n: nat): seq<Record>
    requires n <= |turns|
    decreases n, 0
  {
    if n == 0 then [] else [TurnRecord(t, turns, n - 1)] + History(t, turns, n - 1)
  }

  /** The prompt ids of turn `n`. */
  function PromptIds(t: Tokenizer, turns: seq<Turn>, n: nat): seq<int>
    requires n < |turns|
    decreases n, 1
  {
    PrefixEncoding(t, turns[n].prompt, Some(History(t, turns, n)))
  }

  function TurnRecord(t: Tokenizer, turns: seq<Turn>, n: nat): Record
    requires n < |turns|
    decreases n, 2
  {
    StoredRecord(t, turns[n].prompt, PromptIds(t, turns, n), turns[n].reply, turns[n].streamed)
  }

  /** Every turn has a prompt and brought token ids back. */
  ghost predicate Answered(turns: seq<Turn>) {
    forall k | 0 <= k < |turns| :: turns[k].prompt != "" && ReplyIds(turns[k].reply) != []
  }

  /** Over a session with any branching: every prompt's ids decode to the prompt, and every stored record
      is consistent. */
  lemma {:induction false} SessionRoundTrip(t: Tokenizer, turns: seq<Turn>, n: nat)
    requires RoundTrips(t) && Answered(turns) && n < |turns|
    ensures Decode(t, PromptIds(t, turns, n)) == turns[n].prompt
    ensures Consistent(t, TurnRecord(t, turns, n))
    decreases n
  {
    forall k | 0 <= k < n ensures Consistent(t, TurnRecord(t, turns, k)) { SessionRoundTrip(t, turns, k); }
    HistoryRecords(t, turns, n);
    EncodeDecodes(t, turns[n].prompt, Some(History(t, turns, n)));
    StoredIsConsistentIff(t, turns[n].prompt, PromptIds(t, turns, n), turns[n].reply, turns[n].streamed);
  }

  lemma {:induction false} HistoryRecords(t: Tokenizer, turns: seq<Turn>, n: nat)
    requires n <= |turns|
    ensures |History(t, turns, n)| == n
    ensures forall i | 0 <= i < n :: History(t, turns, n)[i] == TurnRecord(t, turns, n - 1 - i)
  {
    hide TurnRecord;
    if n != 0 { HistoryRecords(t, turns, n - 1); }
  }

  /** Each turn continues the whole conversation of the turn before it. */
  ghost predicate Linear(t: Tokenizer, turns: seq<Turn>) {
    forall k | 0 <= k < |turns| - 1 :: turns[k].prompt + ReplyText(t, turns[k].reply) <= turns[k + 1].prompt
  }

  /** What an answered turn with prompt ids stores. */
  lemma AnsweredRecord(t: Tokenizer, turns: seq<Turn>, n: nat)
    requires n < |turns| && Answered(turns) && PromptIds(t, turns, n) != []
    ensures TurnRecord(t, turns, n) ==
            Record(turns[n].prompt + ReplyText(t, turns[n].reply), Some(PromptIds(t, turns, n) + ReplyIds(turns[n].reply)))
    ensures TurnRecord(t, turns, n).text != "" && Length(TurnRecord(t, turns, n)) > |PromptIds(t, turns, n)|
  {
    hide PromptIds, ReplyText;
  }

  /** In a linear session the prompt ids of each turn begin with the prompt ids and the response ids of
      the turn before it, verbatim: the newest record is the longest match. */
  lemma {:induction false} TokensNest(t: Tokenizer, turns: seq<Turn>, n: nat)
    requires Linear(t, turns) && Answered(turns) && n < |turns|
    requires t.encode(turns[0].prompt) != []
    ensures PromptIds(t, turns, n) != []
    ensures forall k | 0 <= k < n :: Length(TurnRecord(t, turns, k)) < Length(TurnRecord(t, turns, n))
    ensures n > 0 ==> PromptIds(t, turns, n - 1) + ReplyIds(turns[n - 1].reply) <= PromptIds(t, turns, n)
    decreases n
  {
    hide TurnRecord, ReplyText, ReplyIds, SortDescending, FirstMatch;
    HistoryRecords(t, turns, n);
    var history, prompt := History(t, turns, n), turns[n].prompt;
    LongestMatch(prompt, history);
    if n > 0 {
      TokensNest(t, turns, n - 1);
      AnsweredRecord(t, turns, n - 1);
      assert history[0] == TurnRecord(t, turns, n - 1);
      forall i | 0 < i < n ensures Length(history[i]) < Length(history[0]) {
        assert history[i] == TurnRecord(t, turns, n - 1 - i);
      }
      NewestIsBest(prompt, history);
    }
    AnsweredRecord(t, turns, n);
  }

  lemma NewestIsBest(text: string, history: seq<Record>)
    requires history != [] && Matches(text, history[0])
    requires forall i | 0 < i < |history| :: Length(history[i]) < Length(history[0])
    ensures FirstMatch(text, SortDescending(history)) == Some(history[0])
  {
    LongestMatch(text, history);
  }

  // ---- the strategy object ----

  /** The scan over the sorted history. */
  method FindLongestPrefixMatch(text: string, history: seq<Record>) returns (found: Option<Record>)
    ensures found == FirstMatch(text, SortDescending(history))
  {
    hide SortDescending, Matches;
    var sorted := SortDescending(history);
    for i := 0 to |sorted|
      invariant FirstMatch(text, sorted[i..]) == FirstMatch(text, sorted)
    {
      assert sorted[i..][1..] == sorted[i + 1..];
      if Matches(text, sorted[i]) {
        return Some(sorted[i]);
      }
    }
    return None;
  }

  /** The cache fields of a request's context. */
  class ProcessContext {
    var uncachedText: string
    var cachedTokenIds: seq<int>
    var uncachedTokenIds: seq<int>
    var cacheHitTokens: nat

    constructor () {
      uncachedText, cachedTokenIds, uncachedTokenIds, cacheHitTokens := "", [], [], 0;
    }

    method EncodeWithCache(t: Tokenizer, text: string, history: Option<seq<Record>>) returns (ids: seq<int>)
      modifies this
      ensures ids == PrefixEncoding(t, text, history)
      ensures cachedTokenIds + uncachedTokenIds == ids
      ensures |uncachedText| <= |text| && uncachedText == text[|text| - |uncachedText|..]
      ensures uncachedText == text ==> cachedTokenIds == []
      ensures uncachedText != "" ==> uncachedTokenIds == t.encode(uncachedText)
      ensures cachedTokenIds != [] ==> cacheHitTokens == |cachedTokenIds|
    {
      uncachedText, cachedTokenIds := text, [];
      if history == None {
        ids := t.encode(text);
        uncachedTokenIds := ids;
        return;
      }
      var found := FindLongestPrefixMatch(text, history.value);
      if found == None {
        ids := t.encode(text);
        uncachedTokenIds := ids;
        return;
      }
      var r := found.value;
      cacheHitTokens, cachedTokenIds := Length(r), Ids(r);
      uncachedText := text[|r.text|..];
      assert |r.text| > 0;
      if uncachedText != "" {
        uncachedTokenIds := t.encode(uncachedText);
        ids := cachedTokenIds + uncachedTokenIds;
      } else {
        uncachedTokenIds := [];
        ids := cachedTokenIds;
      }
    }
  }
}
