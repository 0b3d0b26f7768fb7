/** Where archived rows are said to be: the storage key of a session's file, and the location that the clean-up records
    in the rows it marks. */
module ArchiveLocation {
  import opened Text
  import opened ArchiveDispatch
  import opened BlobKey
  import opened ArchiveData

  // ---- keys ----

  lemma {:induction false} ReplacedAt(s: string, c: char, i: nat)
    requires i < |s|
    ensures |ReplaceChar(s, c)| == |s| && ReplaceChar(s, c)[i] == if s[i] == c then '_' else s[i]
  {
    if i > 0 { ReplacedAt(s[1..], c, i - 1); } else if |s| > 1 { ReplacedAt(s[1..], c, 0); }
  }

  /** The safe form of an id has the same characters, but for an underscore in place of each comma and slash. */
  lemma SafePathIs(segment: string)
    ensures |SafePath(segment)| == |segment|
    ensures forall i | 0 <= i < |segment| :: SafePath(segment)[i] == if segment[i] == ',' || segment[i] == '/' then '_' else segment[i]
  {
    hide ReplaceChar;
    var s := ReplaceChar(segment, ',');
    if segment == "" {
      NothingReplaced();
    } else {
      ReplacedAt(segment, ',', 0);
      ReplacedAt(s, '/', 0);
    }
    forall i | 0 <= i < |segment| ensures SafePath(segment)[i] == if segment[i] == ',' || segment[i] == '/' then '_' else segment[i] {
      ReplacedAt(segment, ',', i);
      ReplacedAt(s, '/', i);
    }
  }

  lemma NothingReplaced()
    ensures SafePath("") == ""
  {}

  /** An id is left alone exactly if it has neither a comma nor a slash. */
  lemma PlainIsKept(segment: string)
    ensures SafePath(segment) == segment <==> ',' !in segment && '/' !in segment
  {
    hide SafePath;
    SafePathIs(segment);
    if SafePath(segment) != segment {
      var i :| 0 <= i < |segment| && SafePath(segment)[i] != segment[i];
      assert segment[i] in segment;
    }
    SafePathHasNoSlash(segment);
  }

  /** The directory of a run. */
  function Location(run: string): string {
    SafePath(run) + "/"
  }

  /** The file lies directly in that directory. */
  ghost predicate LiesIn(key: string, location: string) {
    location <= key && '/' !in key[|location|..] && |location| > 0 && location[|location| - 1] == '/'
  }

  /** The file of a session lies in the directory of its run, under its safe name; for plain ids it is `run/session` with
      the suffix. */
  lemma KeyLiesInRun(run: string, session: Session)
    ensures LiesIn(FileKey(run, session), Location(run))
    ensures FileKey(run, session)[|Location(run)|..] == SafePath(Display(session)) + ".jsonl.gz"
    ensures session.Id? && session.name != "" && ',' !in run + session.name && '/' !in run + session.name ==>
              FileKey(run, session) == run + "/" + session.name + ".jsonl.gz"
  {
    hide SafePath;
    var name := SafePath(Display(session)) + ".jsonl.gz";
    SafePathHasNoSlash(Display(session));
    assert FileKey(run, session) == Location(run) + name;
    if session.Id? && session.name != "" && ',' !in run + session.name && '/' !in run + session.name {
      PlainIsKept(run);
      PlainIsKept(session.name);
      assert run + "/" + (session.name + ".jsonl.gz") == run + "/" + session.name + ".jsonl.gz";
    }
  }

  // ---- the recorded location ----

  /** A row that is marked has a run, and is marked with its directory. */
  ghost predicate LocationsOk(db: Db) {
    forall id | id in db.metas && db.metas[id].location.Some? ::
      db.metas[id].run.Some? && db.metas[id].location.value == Location(db.metas[id].run.value)
  }

  lemma StepLocates(db: Db, e: DataEvent)
    requires LocationsOk(db) && Allowed(db, e)
    ensures LocationsOk(NextDb(db, e))
  {
    hide SafePath, FileKey, Readable, MayOpen, IsExport;
  }

  lemma {:induction false} RunLocates(db: Db, es: seq<DataEvent>)
    requires LocationsOk(db) && AllowedRun(db, es)
    ensures LocationsOk(RunDb(db, es))
    decreases |es|
  {
    hide LocationsOk, NextDb, Allowed;
    if es != [] {
      StepLocates(db, es[0]);
      RunLocates(NextDb(db, es[0]), es[1..]);
    }
  }

  /** In every reachable state, whatever happens in between: a marked row is marked with the directory of its own run, and
      the file of its session lies in that directory. */
  lemma MarkedRowIsLocated(es: seq<DataEvent>, id: nat)
    requires AllowedRun(NO_DATA, es) && id in RunDb(NO_DATA, es).metas && RunDb(NO_DATA, es).metas[id].location.Some?
    ensures var m := RunDb(NO_DATA, es).metas[id];
            m.run.Some? && m.location.value == Location(m.run.value) && LiesIn(FileKey(m.run.value, m.session), m.location.value)
  {
    hide AllowedRun, RunDb, LiesIn, FileKey, Location;
    RunLocates(NO_DATA, es);
    var m := RunDb(NO_DATA, es).metas[id];
    KeyLiesInRun(m.run.value, m.session);
  }
}
