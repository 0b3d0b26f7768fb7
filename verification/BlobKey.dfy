/** The storage key of an offloaded blob: sanitised path segments under a fixed prefix. */
module BlobKey {
  import opened Text

  const PREFIX := "route_experts"
  const UNKNOWN_SEGMENT := "unknown"

  // ---- sanitising ----

  /** `segment.replace(c, "_")`. */
  function ReplaceChar(s: string, c: char): string {
    if s == "" then "" else [if s[0] == c then '_' else s[0]] + ReplaceChar(s[1..], c)
  }

  /** `segment.replace("..", "_")`, from left to right. */
  function ReplaceDots(s: string): string
    decreases |s|
  {
    if |s| < 2 then s
    else if s[0] == '.' && s[1] == '.' then "_" + ReplaceDots(s[2..])
    else [s[0]] + ReplaceDots(s[1..])
  }

  /** `_sanitize_path_segment`. */
  function Sanitize(segment: string): string {
    var s := ReplaceDots(ReplaceChar(ReplaceChar(segment, '/'), '\\'));
    if s == "" then UNKNOWN_SEGMENT else s
  }

  /** A segment that names one directory entry below its parent. */
  predicate IsSafe(s: string) {
    s != "" && '/' !in s && '\\' !in s && !HasDots(s)
  }

  predicate HasDots(s: string) {
    exists i | 0 <= i < |s| - 1 :: s[i] == '.' && s[i + 1] == '.'
  }

  lemma {:induction false} ReplaceCharRemoves(s: string, c: char)
    requires c != '_'
    ensures c !in ReplaceChar(s, c)
    ensures forall x | x in ReplaceChar(s, c) :: x in s || x == '_'
    ensures |ReplaceChar(s, c)| == |s|
    ensures c !in s ==> ReplaceChar(s, c) == s
  {
    if s != "" { ReplaceCharRemoves(s[1..], c); }
  }

  lemma {:induction false} ReplaceDotsRemoves(s: string)
    ensures !HasDots(ReplaceDots(s))
    ensures forall x | x in ReplaceDots(s) :: x in s || x == '_'
    ensures ReplaceDots(s) != "" ==> s != "" && (ReplaceDots(s)[0] == s[0] || ReplaceDots(s)[0] == '_')
    ensures s != "" ==> ReplaceDots(s) != ""
    decreases |s|
  {
    if |s| >= 2 {
      var rest := if s[0] == '.' && s[1] == '.' then ReplaceDots(s[2..]) else ReplaceDots(s[1..]);
      if s[0] == '.' && s[1] == '.' { ReplaceDotsRemoves(s[2..]); } else { ReplaceDotsRemoves(s[1..]); }
      var r := ReplaceDots(s);
      forall i | 0 <= i < |r| - 1 && r[i] == '.' ensures r[i + 1] != '.' {
        if i > 0 { assert rest[i - 1] == '.' && r[i + 1] == rest[i]; }
      }
    }
  }

  lemma {:induction false} CleanIsUnchanged(s: string)
    requires !HasDots(s)
    ensures ReplaceDots(s) == s
    decreases |s|
  {
    if |s| >= 2 {
      assert !(s[0] == '.' && s[0 + 1] == '.');
      forall i | 0 <= i < |s[1..]| - 1 ensures !(s[1..][i] == '.' && s[1..][i + 1] == '.') {
        assert s[1..][i] == s[i + 1] && s[1..][i + 1] == s[(i + 1) + 1];
      }
      CleanIsUnchanged(s[1..]);
    }
  }

  /** Every sanitised segment is safe, and a segment is left alone exactly if it already is. */
  lemma SanitizeIsSafe(segment: string)
    ensures IsSafe(Sanitize(segment))
    ensures Sanitize(segment) == segment <==> IsSafe(segment)
  {
    var a := ReplaceChar(segment, '/');
    var b := ReplaceChar(a, '\\');
    ReplaceCharRemoves(segment, '/');
    ReplaceCharRemoves(a, '\\');
    ReplaceDotsRemoves(b);
    if IsSafe(segment) { CleanIsUnchanged(segment); }
    assert !HasDots(UNKNOWN_SEGMENT);
  }

  // ---- the key ----

  function OrUnknown(s: Option<string>): string {
    if s.None? || s.value == "" then UNKNOWN_SEGMENT else s.value
  }

  /** `_make_blob_key`. */
  function MakeKey(run: Option<string>, session: Option<string>, request: string): string {
    PREFIX + "/" + Sanitize(OrUnknown(run)) + "/" + Sanitize(OrUnknown(session)) + "/" + Sanitize(request) + ".json"
  }

  /** Safe names stand in the key as they are, and "unknown" for a run or a session that is absent or empty. */
  lemma KeyNames(run: string, session: string, request: string)
    requires IsSafe(run) && IsSafe(session) && IsSafe(request)
    ensures MakeKey(Some(run), Some(session), request) == "route_experts/" + run + "/" + session + "/" + request + ".json"
    ensures MakeKey(Some(run), None, request) == MakeKey(Some(run), Some(""), request) == "route_experts/" + run + "/unknown/" + request + ".json"
    ensures MakeKey(None, Some(session), request) == MakeKey(Some(""), Some(session), request) == "route_experts/unknown/" + session + "/" + request + ".json"
  {
    hide Sanitize, HasDots;
    SanitizeIsSafe(run);
    SanitizeIsSafe(session);
    SanitizeIsSafe(request);
    SanitizeIsSafe(UNKNOWN_SEGMENT);
    assert !HasDots(UNKNOWN_SEGMENT) by { UnknownIsSafe(); }
    assert PREFIX + "/" == "route_experts/";
  }

  lemma UnknownIsSafe()
    ensures IsSafe(UNKNOWN_SEGMENT)
  {}

  /** A path splits at its first slash in one way. */
  lemma {:induction false} SplitOnce(a: string, x: string, b: string, y: string)
    requires '/' !in a && '/' !in b && a + "/" + x == b + "/" + y
    ensures a == b && x == y
  {
    var s, t := a + "/" + x, b + "/" + y;
    assert s[|a|] == '/' && forall i | 0 <= i < |a| :: s[i] == a[i] && s[i] != '/';
    assert t[|b|] == '/' && forall i | 0 <= i < |b| :: t[i] == b[i] && t[i] != '/';
    assert s[..|a|] == a && t[..|b|] == b;
    assert s[|a| + 1..] == x && t[|b| + 1..] == y;
  }

  /** Two blobs share a key exactly if their three sanitised segments are the same. */
  lemma SameKeyIff(run: Option<string>, session: Option<string>, request: string,
                   run': Option<string>, session': Option<string>, request': string)
    ensures MakeKey(run, session, request) == MakeKey(run', session', request') <==>
              && Sanitize(OrUnknown(run)) == Sanitize(OrUnknown(run'))
              && Sanitize(OrUnknown(session)) == Sanitize(OrUnknown(session'))
              && Sanitize(request) == Sanitize(request')
  {
    hide Sanitize, HasDots, OrUnknown;
    var a, b, c := Sanitize(OrUnknown(run)), Sanitize(OrUnknown(session)), Sanitize(request);
    var a', b', c' := Sanitize(OrUnknown(run')), Sanitize(OrUnknown(session')), Sanitize(request');
    SanitizeIsSafe(OrUnknown(run));
    SanitizeIsSafe(OrUnknown(session));
    SanitizeIsSafe(OrUnknown(run'));
    SanitizeIsSafe(OrUnknown(session'));
    if MakeKey(run, session, request) == MakeKey(run', session', request') {
      SamePath(a, b, c, a', b', c');
    }
  }

  function Path(a: string, b: string, c: string): string {
    PREFIX + "/" + a + "/" + b + "/" + c + ".json"
  }

  lemma SamePath(a: string, b: string, c: string, a': string, b': string, c': string)
    requires '/' !in a && '/' !in b && '/' !in a' && '/' !in b' && Path(a, b, c) == Path(a', b', c')
    ensures a == a' && b == b' && c == c'
  {
    var head := PREFIX + "/";
    var x, x' := a + "/" + (b + "/" + (c + ".json")), a' + "/" + (b' + "/" + (c' + ".json"));
    assert Path(a, b, c) == head + x && Path(a', b', c') == head + x';
    assert x == (head + x)[|head|..] && x' == (head + x')[|head|..];
    SplitOnce(a, b + "/" + (c + ".json"), a', b' + "/" + (c' + ".json"));
    SplitOnce(b, c + ".json", b', c' + ".json");
    assert c == (c + ".json")[..|c|] && c' == (c' + ".json")[..|c'|];
  }

  /** Different requests with safe ids never share a key, whatever their runs and sessions are called. */
  lemma SafeIdsKeepKeysApart(run: Option<string>, session: Option<string>, request: string,
                             run': Option<string>, session': Option<string>, request': string)
    requires IsSafe(request) && IsSafe(request') && request != request'
    ensures MakeKey(run, session, request) != MakeKey(run', session', request')
  {
    hide Sanitize, IsSafe, OrUnknown, MakeKey;
    SameKeyIff(run, session, request, run', session', request');
    SanitizeIsSafe(request);
    SanitizeIsSafe(request');
  }

  /** What `str(uuid.uuid4())` returns. */
  predicate IsUuid(s: string) {
    |s| == 36 && forall i | 0 <= i < 36 :: if i == 8 || i == 13 || i == 18 || i == 23 then s[i] == '-' else s[i] in "0123456789abcdef"
  }

  lemma UuidIsSafe(s: string)
    requires IsUuid(s)
    ensures IsSafe(s)
  {
    forall x | x in s ensures x != '/' && x != '\\' && x != '.' {
      var i :| 0 <= i < |s| && s[i] == x;
      assert s[i] == '-' || s[i] in "0123456789abcdef";
    }
  }

  /** An id that is not safe shares the key of the safe id it is turned into: "a/b" that of "a_b". The program never
      issues such an id. */
  lemma UnsafeIdCollides(run: Option<string>, session: Option<string>, request: string)
    requires !IsSafe(request)
    ensures Sanitize(request) != request && IsSafe(Sanitize(request))
    ensures MakeKey(run, session, request) == MakeKey(run, session, Sanitize(request))
  {
    hide Sanitize, IsSafe, OrUnknown;
    SanitizeIsSafe(request);
    SanitizeIsSafe(Sanitize(request));
  }
}
