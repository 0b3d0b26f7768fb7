/** Incremental decoding of a token stream: only an overlap window and the new tokens are decoded, and
    the pieces must still add up to the decoding of the whole stream. */
module TokenConverter {

  const OVERLAP_WINDOW := 4
  const COMMIT_INTERVAL := 32

  // ---- decoders with a bounded look-back ----

  function Last(n: nat, ids: seq<int>): seq<int> {
    if |ids| <= n then ids else ids[|ids| - n..]
  }

  /** A decoder whose text for each token depends on that token and the `reach` tokens before it. */
  function Decode(piece: (seq<int>, int) -> string, reach: nat, ids: seq<int>): string {
    Tail(piece, reach, [], ids)
  }

  function Decoder(piece: (seq<int>, int) -> string, reach: nat): seq<int> -> string {
    ids => Decode(piece, reach, ids)
  }

  /** The text that `ids` add after `before`. */
  function Tail(piece: (seq<int>, int) -> string, reach: nat, before: seq<int>, ids: seq<int>): string
    decreases |ids|
  {
    if ids == [] then ""
    else piece(Last(reach, before), ids[0]) + Tail(piece, reach, before + [ids[0]], ids[1..])
  }

  lemma {:induction false} TailAppends(piece: (seq<int>, int) -> string, reach: nat, before: seq<int>, a: seq<int>, b: seq<int>)
    ensures Tail(piece, reach, before, a + b) == Tail(piece, reach, before, a) + Tail(piece, reach, before + a, b)
    decreases |a|
  {
    if a == [] {
      assert a + b == b && before + a == before;
    } else {
      assert (a + b)[0] == a[0] && (a + b)[1..] == a[1..] + b;
      assert before + [a[0]] + a[1..] == before + a;
      TailAppends(piece, reach, before + [a[0]], a[1..], b);
    }
  }

  /** Only the last `reach` tokens before matter. */
  lemma {:induction false} TailLooksBack(piece: (seq<int>, int) -> string, reach: nat, x: seq<int>, y: seq<int>, ids: seq<int>)
    requires Last(reach, x) == Last(reach, y)
    ensures Tail(piece, reach, x, ids) == Tail(piece, reach, y, ids)
    decreases |ids|
  {
    if ids != [] {
      LastExtends(reach, x, y, ids[0]);
      TailLooksBack(piece, reach, x + [ids[0]], y + [ids[0]], ids[1..]);
    }
  }

  lemma LastExtends(n: nat, x: seq<int>, y: seq<int>, t: int)
    requires Last(n, x) == Last(n, y)
    ensures Last(n, x + [t]) == Last(n, y + [t])
  {
    var a, b := Last(n, x + [t]), Last(n, y + [t]);
    if |x| < n {
      assert x == y;
    } else {
      assert |y| >= n && |a| == |b|;
      forall i | 0 <= i < |a| ensures a[i] == b[i] {
        if i < |a| - 1 { assert Last(n, x)[i + 1] == Last(n, y)[i + 1]; }
      }
    }
  }

  // ---- one call ----

  /** The streaming fields of the context. */
  datatype Buffer = Buffer(ids: seq<int>, text: string, checkpoint: nat)

  function Drop(s: string, n: nat): string {
    if n <= |s| then s[n..] else ""
  }

  datatype Path = Full | Incremental | Fallback

  /** `decode_streaming` for a tokenizer with the given decode function. */
  function Step(decode: seq<int> -> string, c: Buffer, ids: seq<int>): (r: (Buffer, string, Path))
    requires c.checkpoint <= |c.ids|
    ensures r.0.checkpoint == |r.0.ids|
  {
    var all := c.ids + ids;
    var full := decode(all);
    if c.checkpoint == 0 || |all| - c.checkpoint >= COMMIT_INTERVAL then
      (Buffer(all, full, |all|), Drop(full, |c.text|), Full)
    else
      var start := if c.checkpoint >= OVERLAP_WINDOW then c.checkpoint - OVERLAP_WINDOW else 0;
      var segment, overlap := decode(all[start..]), decode(all[start..c.checkpoint]);
      if overlap <= segment then
        (Buffer(all, c.text + segment[|overlap|..], |all|), segment[|overlap|..], Incremental)
      else (Buffer(all, full, |all|), Drop(full, |c.text|), Fallback)
  }

  const EMPTY := Buffer([], "", 0)

  ghost predicate Aligned(decode: seq<int> -> string, c: Buffer) {
    c.checkpoint == |c.ids| && c.text == decode(c.ids)
  }

  /** With a reach of at most the window, a call returns exactly what the new tokens add, and the overlap
      always decodes the same alone and in context. */
  lemma StepIsExact(piece: (seq<int>, int) -> string, reach: nat, c: Buffer, ids: seq<int>)
    requires reach <= OVERLAP_WINDOW
    requires Aligned(Decoder(piece, reach), c)
    ensures var (c', text, path) := Step(Decoder(piece, reach), c, ids);
            && Aligned(Decoder(piece, reach), c') && c'.ids == c.ids + ids
            && c.text + text == c'.text && path != Fallback
  {
    hide Tail, Last;
    var n := c.checkpoint;
    var added := Tail(piece, reach, c.ids, ids);
    DecodeSplits(piece, reach, c.ids, ids);
    assert c.text + added == Decode(piece, reach, c.ids + ids);
    if n != 0 && |ids| < COMMIT_INTERVAL {
      var start := if n >= OVERLAP_WINDOW then n - OVERLAP_WINDOW else 0;
      var window := c.ids[start..];
      assert (c.ids + ids)[start..] == window + ids && (c.ids + ids)[start..n] == window;
      DecodeSplits(piece, reach, window, ids);
      WindowIsEnough(reach, c.ids, start);
      TailLooksBack(piece, reach, window, c.ids, ids);
    }
  }

  lemma DecodeSplits(piece: (seq<int>, int) -> string, reach: nat, a: seq<int>, b: seq<int>)
    ensures Decode(piece, reach, a + b) == Decode(piece, reach, a) + Tail(piece, reach, a, b)
  {
    TailAppends(piece, reach, [], a, b);
    assert [] + a == a;
  }

  lemma WindowIsEnough(reach: nat, ids: seq<int>, start: nat)
    requires start <= |ids| && (start == 0 || |ids| - start >= reach)
    ensures Last(reach, ids[start..]) == Last(reach, ids)
  {}

  // ---- whole streams ----

  function Concat(chunks: seq<seq<int>>): seq<int> {
    if chunks == [] then [] else chunks[0] + Concat(chunks[1..])
  }

  /** The final buffer, everything returned, and whether any call fell back to a full decode. */
  function Run(decode: seq<int> -> string, c: Buffer, chunks: seq<seq<int>>): (Buffer, string, bool)
    requires c.checkpoint <= |c.ids|
    decreases |chunks|
  {
    if chunks == [] then (c, "", false)
    else
      var (c1, text, path) := Step(decode, c, chunks[0]);
      var (c2, rest, fell) := Run(decode, c1, chunks[1..]);
      (c2, text + rest, path == Fallback || fell)
  }

  lemma {:induction false} RunIsExact(piece: (seq<int>, int) -> string, reach: nat, c: Buffer, chunks: seq<seq<int>>)
    requires reach <= OVERLAP_WINDOW
    requires Aligned(Decoder(piece, reach), c)
    ensures var (c', text, fell) := Run(Decoder(piece, reach), c, chunks);
            && Aligned(Decoder(piece, reach), c') && c'.ids == c.ids + Concat(chunks)
            && c.text + text == c'.text && !fell
    decreases |chunks|
  {
    hide Step, Decode;
    if chunks == [] {
      assert c.ids + [] == c.ids && c.text + "" == c.text;
    } else {
      var decode := Decoder(piece, reach);
      var (c1, text, _) := Step(decode, c, chunks[0]);
      StepIsExact(piece, reach, c, chunks[0]);
      RunIsExact(piece, reach, c1, chunks[1..]);
      var rest := Run(decode, c1, chunks[1..]).1;
      assert c.ids + Concat(chunks) == c1.ids + Concat(chunks[1..]);
      assert c.text + (text + rest) == c1.text + rest;
    }
  }

  /** Every chunking gives the client the decoding of the whole stream, without a single fallback. */
  ghost predicate ExactFor(piece: (seq<int>, int) -> string, reach: nat) {
    forall chunks ::
      var (c, text, fell) := Run(Decoder(piece, reach), EMPTY, chunks);
      text == c.text == Decode(piece, reach, Concat(chunks)) && c.checkpoint == |c.ids| && !fell
  }

  lemma DecodingIsExact(piece: (seq<int>, int) -> string, reach: nat)
    requires reach <= OVERLAP_WINDOW
    ensures ExactFor(piece, reach)
  {
    forall chunks
      ensures var (c, text, fell) := Run(Decoder(piece, reach), EMPTY, chunks);
              text == c.text == Decode(piece, reach, Concat(chunks)) && c.checkpoint == |c.ids| && !fell
    {
      RunIsExact(piece, reach, EMPTY, chunks);
      var (c, text, _) := Run(Decoder(piece, reach), EMPTY, chunks);
      assert [] + Concat(chunks) == Concat(chunks) && "" + text == text;
    }
  }

  /** A decoder that looks back one token further than the window. */
  function FarSighted(before: seq<int>, id: int): string {
    if |before| > OVERLAP_WINDOW then "b" else "a"
  }

  function Letters(n: nat): (s: string)
    ensures |s| == n && forall i | 0 <= i < n :: s[i] == 'a'
  {
    seq(n, i => 'a')
  }

  const FIVE: seq<int> := [0, 0, 0, 0, 0]

  /** One more token of look-back than the window covers is too much for some decoder. */
  lemma LongerReachFails(reach: nat)
    requires reach > OVERLAP_WINDOW
    ensures !ExactFor(FarSighted, reach)
  {
    hide Step, Run, Decode, FarSighted, ExactFor;
    FirstFive(reach);
    SixthIsWrong(reach);
    SixthDecoded(reach);
    RunTwo(Decoder(FarSighted, reach), FIVE, [0]);
    assert (Letters(5) + ("a" + ""))[5] == 'a' && (Letters(5) + "b")[5] == 'b';
    TwoChunks(FIVE, [0]);
    NotExact(FarSighted, reach, [FIVE, [0]], FIVE + [0]);
  }

  lemma NotExact(piece: (seq<int>, int) -> string, reach: nat, chunks: seq<seq<int>>, all: seq<int>)
    requires Concat(chunks) == all && Run(Decoder(piece, reach), EMPTY, chunks).1 != Decode(piece, reach, all)
    ensures !ExactFor(piece, reach)
  {
    hide Run, Decode, Concat;
  }

  lemma TwoChunks(a: seq<int>, b: seq<int>)
    ensures Concat([a, b]) == a + b
  {
    assert [a, b][1..] == [b] && [b][1..] == [] && b + [] == b;
    assert Concat([b]) == b;
  }

  /** The first call decodes all five tokens. */
  lemma FirstFive(reach: nat)
    ensures Step(Decoder(FarSighted, reach), EMPTY, FIVE) == (Buffer(FIVE, Letters(5), 5), Letters(5), Full)
  {
    hide FarSighted, Decode, Letters;
    DecodeShort(reach, FIVE);
    assert [] + FIVE == FIVE && Drop(Letters(5), 0) == Letters(5);
  }

  /** The second call sees the window only, and takes the sixth token for one with a short past. */
  lemma SixthIsWrong(reach: nat)
    ensures Step(Decoder(FarSighted, reach), Buffer(FIVE, Letters(5), 5), [0]).1 == "a"
  {
    hide FarSighted, Decode, Letters;
    var all := FIVE + [0];
    assert all[1..] == FIVE && all[1..5] == [0, 0, 0, 0];
    DecodeShort(reach, FIVE);
    DecodeShort(reach, [0, 0, 0, 0]);
    assert Letters(5)[..4] == Letters(4) && Letters(5)[4..] == "a";
  }

  lemma SixthDecoded(reach: nat)
    requires reach > OVERLAP_WINDOW
    ensures Decode(FarSighted, reach, FIVE + [0]) == Letters(5) + "b"
  {
    hide Decode, Letters;
    LastTokenAlone(FarSighted, reach, FIVE, 0);
    DecodeShort(reach, FIVE);
  }

  lemma RunTwo(decode: seq<int> -> string, a: seq<int>, b: seq<int>)
    ensures var (c1, t1, _) := Step(decode, EMPTY, a);
            var (c2, t2, _) := Step(decode, c1, b);
            Run(decode, EMPTY, [a, b]).1 == t1 + (t2 + "")
  {
    hide Step;
    assert [a, b][1..] == [b] && [b][1..] == [];
    var (c1, _, _) := Step(decode, EMPTY, a);
    assert Run(decode, c1, [b]).1 == Step(decode, c1, b).1 + "";
  }

  lemma LastTokenAlone(piece: (seq<int>, int) -> string, reach: nat, ids: seq<int>, id: int)
    ensures Decode(piece, reach, ids + [id]) == Decode(piece, reach, ids) + piece(Last(reach, ids), id)
    ensures |ids| <= reach ==> Last(reach, ids) == ids
  {
    DecodeSplits(piece, reach, ids, [id]);
    assert Tail(piece, reach, ids + [id], [id][1..]) == "";
  }

  /** The window suffices for every decoder of the given reach exactly when it covers the reach. */
  lemma WindowCoversReach(reach: nat)
    ensures (forall piece: (seq<int>, int) -> string :: ExactFor(piece, reach)) <==> reach <= OVERLAP_WINDOW
  {
    hide ExactFor;
    if reach <= OVERLAP_WINDOW {
      forall piece: (seq<int>, int) -> string ensures ExactFor(piece, reach) { DecodingIsExact(piece, reach); }
    } else {
      LongerReachFails(reach);
    }
  }

  /** Up to five tokens, nothing is out of the window. */
  lemma DecodeShort(reach: nat, ids: seq<int>)
    requires |ids| <= 5
    ensures Decode(FarSighted, reach, ids) == Letters(|ids|)
  {
    hide Tail, Letters;
    TailShort(reach, [], ids);
  }

  lemma {:induction false} TailShort(reach: nat, before: seq<int>, ids: seq<int>)
    requires |before| + |ids| <= 5
    ensures Tail(FarSighted, reach, before, ids) == Letters(|ids|)
    decreases |ids|
  {
    if ids != [] {
      TailShort(reach, before + [ids[0]], ids[1..]);
      assert "a" + Letters(|ids| - 1) == Letters(|ids|);
    }
  }

  // ---- the context object ----

  class ProcessContext {
    var streamBufferIds: seq<int>
    var streamBufferText: string
    var streamDecodeCheckpointLen: nat

    function Abs(): Buffer
      reads this
    {
      Buffer(streamBufferIds, streamBufferText, streamDecodeCheckpointLen)
    }

    constructor ()
      ensures Abs() == EMPTY
    {
      streamBufferIds, streamBufferText, streamDecodeCheckpointLen := [], "", 0;
    }

    method DecodeStreaming(decode: seq<int> -> string, tokenIds: seq<int>) returns (newText: string)
      requires streamDecodeCheckpointLen <= |streamBufferIds|
      modifies this
      ensures var (c, text, _) := Step(decode, old(Abs()), tokenIds); Abs() == c && newText == text
    {
      streamBufferIds := streamBufferIds + tokenIds;
      var total, checkpoint := |streamBufferIds|, streamDecodeCheckpointLen;
      if checkpoint == 0 || total - checkpoint >= COMMIT_INTERVAL {
        var full := decode(streamBufferIds);
        newText := Drop(full, |streamBufferText|);
        streamBufferText, streamDecodeCheckpointLen := full, total;
        return;
      }
      var start := if checkpoint >= OVERLAP_WINDOW then checkpoint - OVERLAP_WINDOW else 0;
      var segment := decode(streamBufferIds[start..]);
      var overlap := decode(streamBufferIds[start..checkpoint]);
      if overlap <= segment {
        newText := segment[|overlap|..];
        streamBufferText, streamDecodeCheckpointLen := streamBufferText + newText, total;
        return;
      }
      var full := decode(streamBufferIds);
      newText := Drop(full, |streamBufferText|);
      streamBufferText, streamDecodeCheckpointLen := full, total;
    }
  }
}
