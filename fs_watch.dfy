/** The ingestion logic of fs_watch.py: the three event handlers of `Watcher`,
    the start-up resolution of the watch directory, and the start-up scan.
    Each is given first as a function from the ledger (the `filedata` table)
    and the sink log (the `do_post` calls made so far) to their new values,
    and then as a method of the class `Watcher`, which holds both and is proved
    to follow the function. */
module FsWatch {
  import opened Wrappers
  import opened Datastore
  import opened FileMeta
  import Config
  import Api

  datatype EventKind = Created | Modified | Deleted | Moved

  /** A watchdog event: its kind, `src_path` and `is_directory`. */
  datatype Event = Event(kind: EventKind, srcPath: Path, isDirectory: bool)

  /** What escapes a handler or the scan. */
  datatype WatchError = OsFailure(os: OsError) | SinkFailure(api: Api.ApiError)

  /** The ledger and the sink log. */
  datatype State = State(table: Table, sinkLog: seq<Api.Post>)

  /** A new state, and whether the code returned or raised. */
  datatype Step = Step(state: State, outcome: Outcome<WatchError>)

  /** A row named `p` exists. */
  ghost predicate Recorded(rows: seq<FileData>, p: Path)
  {
    exists i :: 0 <= i < |rows| && rows[i].name == p
  }

  /** Every row carries the hash this code computes for its name, as every
      row this code inserts does. */
  ghost predicate SelfWritten(host: Host, rows: seq<FileData>)
  {
    forall i :: 0 <= i < |rows| ==> rows[i].md5Hash == FileHash(host, rows[i].name)
  }

  /** The row both `on_created` and the scan build from `fileinfo`. */
  function RowFor(p: Path, info: Info): FileData
  {
    NewFileData(p, info.md5, info.owner, info.group, info.filesize, info.fileperm, info.mtime)
  }

  /** `do_post(path, mimetype, owner, mtime, fileperm, filesize)`. */
  function PostOf(api: Api.SearchAppApi, p: Path, info: Info): Api.Post
  {
    Api.PostFor(api, p, info.mimetype, info.owner, info.mtime, info.fileperm, info.filesize)
  }

  /** `do_post` returns or raises according to the sink's status. */
  function SinkOutcome(status: int): (r: Outcome<WatchError>)
    ensures r.Pass? <==> status == 200
    ensures r.Fail? ==> r.error == SinkFailure(Api.IndexRejected(status))
  {
    match Api.DoPostResult(status)
    case Pass => Pass
    case Fail(e) => Fail(SinkFailure(e))
  }

  /** `session.add(row); session.commit(); api.do_post(...)`: the row is
      committed before the post, so it stays even when the post raises. */
  function RecordAndPost(api: Api.SearchAppApi, s: State, p: Path, info: Info, status: int): (r: Step)
    ensures |r.state.table.rows| == |s.table.rows| + 1 && r.state.table.rows[..|s.table.rows|] == s.table.rows
    ensures r.state.table.rows[|s.table.rows|] == RowFor(p, info).(id := Some(s.table.nextId))
    ensures r.state.table.rows[|s.table.rows|].name == p
    ensures r.state.table.nextId == s.table.nextId + 1
    ensures |r.state.sinkLog| == |s.sinkLog| + 1 && r.state.sinkLog[..|s.sinkLog|] == s.sinkLog
    ensures r.state.sinkLog[|s.sinkLog|] == PostOf(api, p, info)
    ensures r.outcome.Pass? <==> status == 200
    ensures r.outcome.Fail? ==> r.outcome.error == SinkFailure(Api.IndexRejected(status))
  {
    Step(State(Insert(s.table, RowFor(p, info)), s.sinkLog + [PostOf(api, p, info)]), SinkOutcome(status))
  }

  /** `on_created`. A directory is left to the walk; an `OSError` from
      `fileinfo` is logged and swallowed; a file with a MIME type is recorded
      and posted, with no look at the ledger first. */
  function CreatedStep(host: Host, api: Api.SearchAppApi, s: State, fs: Snapshot, ev: Event, status: int): (r: Step)
    ensures Keyed(s.table) ==> Keyed(r.state.table)
    ensures SelfWritten(host, s.table.rows) ==> SelfWritten(host, r.state.table.rows)
  {
    if ev.isDirectory then Step(s, Pass)
    else match FileInfo(host, fs, ev.srcPath)
      case Err(_) => Step(s, Pass)
      case Ok(info) =>
        if info.mimetype.Some? then RecordAndPost(api, s, ev.srcPath, info, status) else Step(s, Pass)
  }

  /** The query of `on_modified`: rows with this name and another hash. */
  function StaleRows(rows: seq<FileData>, p: Path, md5: string): seq<FileData>
  {
    Where(rows, (row: FileData) => row.name == p && row.md5Hash != md5)
  }

  /** The columns `on_modified` overwrites. */
  function PatchOf(info: Info): Patch
  {
    Patch(info.md5, info.filesize, info.owner, info.group, info.mtime, info.fileperm)
  }

  /** `on_modified`. An `OSError` from `fileinfo` escapes. When some row has
      this name and a different hash, an `update` with no filter overwrites
      every row of the table, and the file is posted with whatever MIME type
      it has, `None` included. */
  function ModifiedStep(host: Host, api: Api.SearchAppApi, s: State, fs: Snapshot, ev: Event, status: int): (r: Step)
    ensures Keyed(s.table) ==> Keyed(r.state.table)
    ensures r.state.table.nextId == s.table.nextId && |r.state.table.rows| == |s.table.rows|
  {
    if ev.isDirectory then Step(s, Pass)
    else match FileInfo(host, fs, ev.srcPath)
      case Err(e) => Step(s, Fail(OsFailure(e)))
      case Ok(info) =>
        if |StaleRows(s.table.rows, ev.srcPath, info.md5)| > 0 then
          UpdateAllKeepsKeys(s.table, PatchOf(info));
          Step(State(Table(UpdateAll(s.table.rows, PatchOf(info)), s.table.nextId),
                     s.sinkLog + [PostOf(api, ev.srcPath, info)]),
               SinkOutcome(status))
        else Step(s, Pass)
  }

  /** `ModifiedStep` when the filter finds a row. */
  lemma ModifiedStepFires(host: Host, api: Api.SearchAppApi, s: State, fs: Snapshot, ev: Event, status: int, info: Info)
    requires !ev.isDirectory && FileInfo(host, fs, ev.srcPath) == Ok(info)
    requires |StaleRows(s.table.rows, ev.srcPath, info.md5)| > 0
    ensures ModifiedStep(host, api, s, fs, ev, status)
         == Step(State(Table(UpdateAll(s.table.rows, PatchOf(info)), s.table.nextId), s.sinkLog + [PostOf(api, ev.srcPath, info)]),
                 SinkOutcome(status))
  {
  }

  /** `ModifiedStep` when the filter finds nothing. */
  lemma ModifiedStepQuiet(host: Host, api: Api.SearchAppApi, s: State, fs: Snapshot, ev: Event, status: int, info: Info)
    requires !ev.isDirectory && FileInfo(host, fs, ev.srcPath) == Ok(info)
    requires |StaleRows(s.table.rows, ev.srcPath, info.md5)| == 0
    ensures ModifiedStep(host, api, s, fs, ev, status) == Step(s, Pass)
  {
  }

  /** `on_deleted`: it only logs. */
  function DeletedStep(s: State, ev: Event): Step
  {
    Step(s, Pass)
  }

  /** The handler watchdog calls for an event; `Watcher` keeps the inherited
      `on_moved`, which only logs. */
  function DispatchStep(host: Host, api: Api.SearchAppApi, s: State, fs: Snapshot, ev: Event, status: int): Step
  {
    match ev.kind
    case Created => CreatedStep(host, api, s, fs, ev, status)
    case Modified => ModifiedStep(host, api, s, fs, ev, status)
    case Deleted => DeletedStep(s, ev)
    case Moved => Step(s, Pass)
  }

  /** Directory events and deletions, and moves, change neither the ledger
      nor the sink log. */
  lemma IgnoredEventsChangeNothing(host: Host, api: Api.SearchAppApi, s: State, fs: Snapshot, ev: Event, status: int)
    requires ev.isDirectory || ev.kind == Deleted || ev.kind == Moved
    ensures DispatchStep(host, api, s, fs, ev, status) == Step(s, Pass)
  {
  }

  /** A created file that cannot be stat'ed, or that has no MIME type, is
      neither recorded nor posted, and nothing is raised. */
  lemma CreatedSkipsUnreadableAndUntyped(host: Host, api: Api.SearchAppApi, s: State, fs: Snapshot, ev: Event, status: int)
    requires !ev.isDirectory
    requires FileInfo(host, fs, ev.srcPath).Err? || FileInfo(host, fs, ev.srcPath).value.mimetype.None?
    ensures CreatedStep(host, api, s, fs, ev, status) == Step(s, Pass)
  {
  }

  /** A created file with a MIME type adds exactly one row, named by the
      event's path and under a fresh key, and exactly one post; the handler
      raises exactly when the sink does not answer 200. */
  lemma CreatedRecordsOnceThenPosts(host: Host, api: Api.SearchAppApi, s: State, fs: Snapshot, ev: Event, status: int)
    requires !ev.isDirectory
    requires FileInfo(host, fs, ev.srcPath).Ok? && FileInfo(host, fs, ev.srcPath).value.mimetype.Some?
    ensures var r := CreatedStep(host, api, s, fs, ev, status);
      var info := FileInfo(host, fs, ev.srcPath).value;
      && r.state.table.rows == s.table.rows + [RowFor(ev.srcPath, info).(id := Some(s.table.nextId))]
      && r.state.table.rows[|s.table.rows|].name == ev.srcPath
      && r.state.sinkLog == s.sinkLog + [PostOf(api, ev.srcPath, info)]
      && (r.outcome.Pass? <==> status == 200)
  {
  }

  /** Two create events for the same file append two rows with the same name
      and post twice: `on_created` does no deduplication. */
  lemma RepeatedCreateDuplicates(host: Host, api: Api.SearchAppApi, s: State, fs: Snapshot, ev: Event)
    requires !ev.isDirectory
    requires FileInfo(host, fs, ev.srcPath).Ok? && FileInfo(host, fs, ev.srcPath).value.mimetype.Some?
    ensures var once := CreatedStep(host, api, s, fs, ev, 200);
      var twice := CreatedStep(host, api, once.state, fs, ev, 200);
      var n := |s.table.rows|;
      && |twice.state.table.rows| == n + 2
      && twice.state.table.rows[n].name == ev.srcPath && twice.state.table.rows[n + 1].name == ev.srcPath
      && twice.state.table.rows[n].id != twice.state.table.rows[n + 1].id
      && |twice.state.sinkLog| == |s.sinkLog| + 2
  {
    var once := CreatedStep(host, api, s, fs, ev, 200);
    CreatedRecordsOnceThenPosts(host, api, s, fs, ev, 200);
    CreatedRecordsOnceThenPosts(host, api, once.state, fs, ev, 200);
  }

  /** Some row has this name and another hash exactly when `Where` finds one. */
  lemma StaleRowsNonEmpty(rows: seq<FileData>, p: Path, md5: string)
    ensures |StaleRows(rows, p, md5)| > 0 <==> exists i :: 0 <= i < |rows| && rows[i].name == p && rows[i].md5Hash != md5
  {
    var r := StaleRows(rows, p, md5);
    if |r| > 0 {
      assert r[0] in r;
      var i :| 0 <= i < |rows| && rows[i] == r[0];
    }
    if i :| 0 <= i < |rows| && rows[i].name == p && rows[i].md5Hash != md5 {
      assert rows[i] in r;
    }
  }

  /** `on_modified` writes and posts exactly when some row has the event's
      name and a hash other than the freshly computed one; otherwise nothing
      changes and nothing is raised. */
  lemma ModifiedFiresOnStaleRow(host: Host, api: Api.SearchAppApi, s: State, fs: Snapshot, ev: Event, status: int)
    requires !ev.isDirectory && FileInfo(host, fs, ev.srcPath).Ok?
    ensures var r := ModifiedStep(host, api, s, fs, ev, status);
      var stale := exists i :: 0 <= i < |s.table.rows| && s.table.rows[i].name == ev.srcPath
                               && s.table.rows[i].md5Hash != FileHash(host, ev.srcPath);
      && (stale <==> |r.state.sinkLog| == |s.sinkLog| + 1)
      && (!stale ==> r == Step(s, Pass))
  {
    StaleRowsNonEmpty(s.table.rows, ev.srcPath, FileHash(host, ev.srcPath));
  }

  /** When `on_modified` fires, every row of the table, whatever its name,
      gets the new hash, size, owner, group, time stamp and permissions;
      keys and names stay; one post follows. */
  lemma ModifiedOverwritesEveryRow(host: Host, api: Api.SearchAppApi, s: State, fs: Snapshot, ev: Event, status: int)
    requires !ev.isDirectory && FileInfo(host, fs, ev.srcPath).Ok?
    requires exists i :: 0 <= i < |s.table.rows| && s.table.rows[i].name == ev.srcPath
                         && s.table.rows[i].md5Hash != FileHash(host, ev.srcPath)
    ensures var r := ModifiedStep(host, api, s, fs, ev, status);
      var rows, info := r.state.table.rows, FileInfo(host, fs, ev.srcPath).value;
      && |rows| == |s.table.rows|
      && (forall k :: 0 <= k < |rows| ==>
            && rows[k].id == s.table.rows[k].id && rows[k].name == s.table.rows[k].name
            && rows[k].md5Hash == FileHash(host, ev.srcPath) && rows[k].filesize == info.filesize
            && rows[k].owner == info.owner && rows[k].group == info.group
            && rows[k].mtime == info.mtime && rows[k].permissions == info.fileperm)
      && r.state.sinkLog == s.sinkLog + [PostOf(api, ev.srcPath, info)]
      && (r.outcome.Pass? <==> status == 200)
  {
    StaleRowsNonEmpty(s.table.rows, ev.srcPath, FileHash(host, ev.srcPath));
  }

  /** Because the "hash" is a function of the path, `on_modified` never fires
      on a ledger whose rows all came from this code: it changes nothing,
      however much the file's contents changed. */
  lemma ModifiedIgnoresOwnRows(host: Host, api: Api.SearchAppApi, s: State, fs: Snapshot, ev: Event, status: int)
    requires SelfWritten(host, s.table.rows)
    ensures ModifiedStep(host, api, s, fs, ev, status).state == s
  {
    StaleRowsNonEmpty(s.table.rows, ev.srcPath, FileHash(host, ev.srcPath));
  }

  /** Unlike `on_created`, `on_modified` has no `try` around `fileinfo`: a
      file that cannot be stat'ed raises its `OSError` out of the handler,
      with the ledger and the sink log untouched. */
  lemma ModifiedRaisesOnUnreadable(host: Host, api: Api.SearchAppApi, s: State, fs: Snapshot, ev: Event, status: int)
    requires !ev.isDirectory && FileInfo(host, fs, ev.srcPath).Err?
    ensures ModifiedStep(host, api, s, fs, ev, status) == Step(s, Fail(OsFailure(FileInfo(host, fs, ev.srcPath).error)))
    ensures CreatedStep(host, api, s, fs, ev, status) == Step(s, Pass)
  {
  }

  /** One event as the observer hands it to the watcher: the event, the
      filesystem as the handler finds it, and the sink's answer to a post. */
  datatype Arrival = Arrival(ev: Event, fs: Snapshot, status: int)

  /** An event no handler acts on: a directory event, a deletion or a move. */
  predicate Inert(ev: Event)
  {
    ev.isDirectory || ev.kind == Deleted || ev.kind == Moved
  }

  /** The events of a run, handled one after the other in arrival order. An
      exception escaping a handler ends the run: it leaves the observer's
      dispatch thread. */
  function RunEvents(host: Host, api: Api.SearchAppApi, st: Step, run: seq<Arrival>): (r: Step)
    decreases |run|
    ensures Keyed(st.state.table) ==> Keyed(r.state.table)
    ensures |r.state.sinkLog| >= |st.state.sinkLog| && r.state.sinkLog[..|st.state.sinkLog|] == st.state.sinkLog
    ensures st.outcome.Fail? ==> r == st
  {
    if run == [] || st.outcome.Fail? then st
    else
      var a := run[0];
      DispatchKeepsLog(host, api, st.state, a.fs, a.ev, a.status);
      RunEvents(host, api, DispatchStep(host, api, st.state, a.fs, a.ev, a.status), run[1..])
  }

  /** Every handler keeps the primary-key invariant and only appends to the
      sink log. */
  lemma DispatchKeepsLog(host: Host, api: Api.SearchAppApi, s: State, fs: Snapshot, ev: Event, status: int)
    ensures var r := DispatchStep(host, api, s, fs, ev, status);
      && (Keyed(s.table) ==> Keyed(r.state.table))
      && |r.state.sinkLog| >= |s.sinkLog| && r.state.sinkLog[..|s.sinkLog|] == s.sinkLog
  {
  }

  /** A run made only of directory events, deletions and moves changes
      neither the ledger nor the sink log, and raises nothing. */
  lemma {:induction false} InertRunChangesNothing(host: Host, api: Api.SearchAppApi, s: State, run: seq<Arrival>)
    requires forall k :: 0 <= k < |run| ==> Inert(run[k].ev)
    ensures RunEvents(host, api, Step(s, Pass), run) == Step(s, Pass)
  {
    if run != [] {
      IgnoredEventsChangeNothing(host, api, s, run[0].fs, run[0].ev, run[0].status);
      InertRunChangesNothing(host, api, s, run[1..]);
    }
  }

  /** On a ledger whose rows all came from this code, no event of a run ever
      rewrites a row: `on_modified` never fires, so the ledger only grows, and
      every row still carries its own path's hash. */
  lemma {:induction false} SelfWrittenRunOnlyAppends(host: Host, api: Api.SearchAppApi, s: State, run: seq<Arrival>)
    requires SelfWritten(host, s.table.rows)
    decreases |run|
    ensures var r := RunEvents(host, api, Step(s, Pass), run);
      && SelfWritten(host, r.state.table.rows)
      && |r.state.table.rows| >= |s.table.rows| && r.state.table.rows[..|s.table.rows|] == s.table.rows
  {
    if run != [] {
      var a := run[0];
      var next := DispatchStep(host, api, s, a.fs, a.ev, a.status);
      if a.ev.kind == Modified {
        ModifiedIgnoresOwnRows(host, api, s, a.fs, a.ev, a.status);
      }
      assert |next.state.table.rows| >= |s.table.rows| && next.state.table.rows[..|s.table.rows|] == s.table.rows;
      if next.outcome.Pass? {
        SelfWrittenRunOnlyAppends(host, api, next.state, run[1..]);
        var r := RunEvents(host, api, next, run[1..]);
        PrefixOfPrefix(s.table.rows, next.state.table.rows, r.state.table.rows);
      }
    }
  }

  /** A prefix of a prefix is a prefix: appending twice keeps what was there. */
  lemma PrefixOfPrefix<T>(a: seq<T>, b: seq<T>, c: seq<T>)
    requires |a| <= |b| && b[..|a|] == a
    requires |b| <= |c| && c[..|b|] == b
    ensures c[..|a|] == a
  {
    assert c[..|a|] == c[..|b|][..|a|];
  }

  /** One walked file of the start-up scan (fs_watch.py:235-255). An `OSError`
      from `fileinfo` escapes and ends the scan. A file whose MIME type is one
      of the configured table's values is recorded and posted unless a row with
      its name exists: the `fd.md5_hash == md5` in the filter is a Python
      comparison of a value with itself, evaluated before the query is built,
      so the filter is on the name alone. */
  function ScanFile(host: Host, api: Api.SearchAppApi, allowed: set<Option<string>>, s: State,
                    fs: Snapshot, p: Path, status: int): (r: Step)
    ensures Keyed(s.table) ==> Keyed(r.state.table)
    ensures SelfWritten(host, s.table.rows) ==> SelfWritten(host, r.state.table.rows)
    ensures |r.state.table.rows| >= |s.table.rows| && r.state.table.rows[..|s.table.rows|] == s.table.rows
    ensures |r.state.sinkLog| >= |s.sinkLog| && r.state.sinkLog[..|s.sinkLog|] == s.sinkLog
  {
    match FileInfo(host, fs, p)
    case Err(e) => Step(s, Fail(OsFailure(e)))
    case Ok(info) =>
      if info.mimetype !in allowed then Step(s, Pass)
      else
        var fd := RowFor(p, info);
        var sameHash := fd.md5Hash == info.md5;
        if |Where(s.table.rows, (row: FileData) => row.name == fd.name && sameHash)| == 0 then
          RecordAndPost(api, s, p, info, status)
        else Step(s, Pass)
  }

  /** The scan over the walked files, in order, stopping at the first raise. */
  function ScanSpec(host: Host, api: Api.SearchAppApi, allowed: set<Option<string>>, st: Step,
                    fs: Snapshot, walk: seq<Path>, status: Path -> int): (r: Step)
    ensures Keyed(st.state.table) ==> Keyed(r.state.table)
    ensures SelfWritten(host, st.state.table.rows) ==> SelfWritten(host, r.state.table.rows)
    ensures |r.state.table.rows| >= |st.state.table.rows| && r.state.table.rows[..|st.state.table.rows|] == st.state.table.rows
    ensures |r.state.sinkLog| >= |st.state.sinkLog| && r.state.sinkLog[..|st.state.sinkLog|] == st.state.sinkLog
    ensures st.outcome.Fail? ==> r == st
    decreases |walk|
  {
    if walk == [] || st.outcome.Fail? then st
    else
      var next := ScanFile(host, api, allowed, st.state, fs, walk[0], status(walk[0]));
      var r := ScanSpec(host, api, allowed, next, fs, walk[1..], status);
      PrefixOfPrefix(st.state.table.rows, next.state.table.rows, r.state.table.rows);
      PrefixOfPrefix(st.state.sinkLog, next.state.sinkLog, r.state.sinkLog);
      r
  }

  /** A walked file is recorded and posted exactly when `fileinfo` succeeds,
      its MIME type is among the table's values, and no row has its name. */
  lemma ScanFileAppendsIff(host: Host, api: Api.SearchAppApi, allowed: set<Option<string>>, s: State,
                           fs: Snapshot, p: Path, status: int)
    ensures var r := ScanFile(host, api, allowed, s, fs, p, status);
      var admitted := FileInfo(host, fs, p).Ok? && FileMimetype(host.typesMap, p) in allowed
                      && !Recorded(s.table.rows, p);
      && (admitted <==> |r.state.table.rows| == |s.table.rows| + 1)
      && (admitted <==> |r.state.sinkLog| == |s.sinkLog| + 1)
      && (admitted ==> r.state.table.rows[|s.table.rows|].name == p)
      && (!admitted ==> r.state == s)
      && (r.outcome.Fail? <==> FileInfo(host, fs, p).Err? || (admitted && status != 200))
  {
    var r := ScanFile(host, api, allowed, s, fs, p, status);
    if FileInfo(host, fs, p).Ok? {
      var info := FileInfo(host, fs, p).value;
      var q := Where(s.table.rows, (row: FileData) => row.name == p && true);
      if i :| 0 <= i < |s.table.rows| && s.table.rows[i].name == p {
        assert s.table.rows[i] in q;
      }
      if |q| > 0 {
        assert q[0] in q;
      }
    }
  }

  lemma RecordedInLonger(a: seq<FileData>, b: seq<FileData>, p: Path)
    requires |a| <= |b| && b[..|a|] == a
    requires Recorded(a, p)
    ensures Recorded(b, p)
  {
    var i :| 0 <= i < |a| && a[i].name == p;
    assert b[i] == b[..|a|][i];
  }

  /** When the scan runs to the end, every walked file whose MIME type is
      among the table's values has a row with its name. */
  lemma {:induction false} ScanRecordsAdmitted(host: Host, api: Api.SearchAppApi, allowed: set<Option<string>>,
                                               st: Step, fs: Snapshot, walk: seq<Path>, status: Path -> int)
    requires ScanSpec(host, api, allowed, st, fs, walk, status).outcome.Pass?
    ensures forall k :: 0 <= k < |walk| && FileMimetype(host.typesMap, walk[k]) in allowed ==>
      Recorded(ScanSpec(host, api, allowed, st, fs, walk, status).state.table.rows, walk[k])
    decreases |walk|
  {
    if walk != [] {
      var next := ScanFile(host, api, allowed, st.state, fs, walk[0], status(walk[0]));
      var r := ScanSpec(host, api, allowed, st, fs, walk, status);
      assert r == ScanSpec(host, api, allowed, next, fs, walk[1..], status);
      ScanRecordsAdmitted(host, api, allowed, next, fs, walk[1..], status);
      ScanFileAppendsIff(host, api, allowed, st.state, fs, walk[0], status(walk[0]));
      if FileMimetype(host.typesMap, walk[0]) in allowed {
        if !Recorded(st.state.table.rows, walk[0]) {
          var n := |st.state.table.rows|;
          assert next.state.table.rows[n].name == walk[0];
        } else {
          RecordedInLonger(st.state.table.rows, next.state.table.rows, walk[0]);
        }
        RecordedInLonger(next.state.table.rows, r.state.table.rows, walk[0]);
      }
      forall k | 0 <= k < |walk| && FileMimetype(host.typesMap, walk[k]) in allowed
        ensures Recorded(r.state.table.rows, walk[k])
      {
        if k > 0 {
          assert walk[k] == walk[1..][k - 1];
        }
      }
    }
  }

  /** A scan over files that all have rows already (those the table admits)
      appends nothing and posts nothing, on any filesystem and whatever the
      sink answers. */
  lemma {:induction false} ScanOverRecordedChangesNothing(host: Host, api: Api.SearchAppApi, allowed: set<Option<string>>,
                                                          s: State, fs: Snapshot, walk: seq<Path>, status: Path -> int)
    requires forall k :: 0 <= k < |walk| && FileMimetype(host.typesMap, walk[k]) in allowed ==>
      Recorded(s.table.rows, walk[k])
    ensures ScanSpec(host, api, allowed, Step(s, Pass), fs, walk, status).state == s
    decreases |walk|
  {
    if walk != [] {
      ScanFileAppendsIff(host, api, allowed, s, fs, walk[0], status(walk[0]));
      var next := ScanFile(host, api, allowed, s, fs, walk[0], status(walk[0]));
      assert next.state == s;
      if next.outcome.Pass? {
        forall k | 0 <= k < |walk[1..]| && FileMimetype(host.typesMap, walk[1..][k]) in allowed
          ensures Recorded(s.table.rows, walk[1..][k])
        {
          assert walk[1..][k] == walk[k + 1];
        }
        ScanOverRecordedChangesNothing(host, api, allowed, s, fs, walk[1..], status);
      }
    }
  }

  /** Re-scanning: after a scan that ran to the end, a second scan over the
      same files appends nothing and posts nothing, even if their contents
      changed in between, since the filter looks at names only. */
  lemma RescanAppendsNothing(host: Host, api: Api.SearchAppApi, allowed: set<Option<string>>, s: State,
                             fs: Snapshot, fs2: Snapshot, walk: seq<Path>, status: Path -> int, status2: Path -> int)
    requires ScanSpec(host, api, allowed, Step(s, Pass), fs, walk, status).outcome.Pass?
    ensures var first := ScanSpec(host, api, allowed, Step(s, Pass), fs, walk, status).state;
      ScanSpec(host, api, allowed, Step(first, Pass), fs2, walk, status2).state == first
  {
    var first := ScanSpec(host, api, allowed, Step(s, Pass), fs, walk, status).state;
    ScanRecordsAdmitted(host, api, allowed, Step(s, Pass), fs, walk, status);
    ScanOverRecordedChangesNothing(host, api, allowed, first, fs2, walk, status2);
  }

  /** An extension in the configured list that has no MIME type puts `None`
      among the table's values, so the scan records and posts a walked file
      without any MIME type, provided no row has its name. */
  lemma ScanAdmitsUntypedFiles(host: Host, api: Api.SearchAppApi, mimetypes: map<string, Option<string>>,
                               items: seq<string>, ext: string, s: State, fs: Snapshot, p: Path, status: int)
    requires Config.IsMimetypeTable(mimetypes, items, host.typesMap)
    requires ext in items && "." + ext !in host.typesMap
    requires FileInfo(host, fs, p).Ok? && FileMimetype(host.typesMap, p).None?
    requires !Recorded(s.table.rows, p)
    ensures var r := ScanFile(host, api, mimetypes.Values, s, fs, p, status);
      && |r.state.table.rows| == |s.table.rows| + 1
      && r.state.sinkLog == s.sinkLog + [PostOf(api, p, FileInfo(host, fs, p).value)]
      && r.state.sinkLog[|s.sinkLog|].mimetype.None?
  {
    Config.UnmappedExtensionAddsNone(mimetypes, items, host.typesMap, ext);
    ScanFileAppendsIff(host, api, mimetypes.Values, s, fs, p, status);
  }

  /** The paths `os.walk` yields for one directory, joined to its root. */
  function Joined(root: Path, files: seq<string>): (r: seq<Path>)
    ensures |r| == |files| && forall j :: 0 <= j < |r| ==> r[j] == PathJoin(root, files[j])
  {
    seq(|files|, j requires 0 <= j < |files| => PathJoin(root, files[j]))
  }

  /** All paths of a walk, directory by directory. */
  function WalkPaths(walk: seq<(Path, seq<string>)>): seq<Path>
  {
    if walk == [] then [] else Joined(walk[0].0, walk[0].1) + WalkPaths(walk[1..])
  }

  /** The scan of a non-empty list is the scan of its tail from the state
      the first file leaves. */
  lemma ScanUnfold(host: Host, api: Api.SearchAppApi, allowed: set<Option<string>>, s: State,
                   fs: Snapshot, paths: seq<Path>, status: Path -> int)
    requires |paths| > 0
    ensures ScanSpec(host, api, allowed, Step(s, Pass), fs, paths, status)
         == ScanSpec(host, api, allowed, ScanFile(host, api, allowed, s, fs, paths[0], status(paths[0])), fs, paths[1..], status)
  {
  }

  /** The paths of a walk from directory `i` on: that directory's, then the rest. */
  lemma WalkPathsFrom(walk: seq<(Path, seq<string>)>, i: nat)
    requires i < |walk|
    ensures WalkPaths(walk[i..]) == Joined(walk[i].0, walk[i].1) + WalkPaths(walk[i + 1..])
  {
    assert walk[i..][0] == walk[i];
    assert walk[i..][1..] == walk[i + 1..];
  }

  /** What can stop the program before the scan starts. */
  datatype StartupError = ConfigFailure(cause: Config.ConfigError) | ApiFailure(reason: Api.ApiError) | WalkException

  datatype Startup = Startup(watchDir: Path, api: Api.SearchAppApi)

  /** `SearchAppApi(config.search_key(), config.app_key(), config.base_url(),
      config.schema())`, as both `Watcher()` and the main program build it. */
  function ConfiguredApi(config: Config.FSConfig, apiDefaults: Config.FSConfig): (r: Result<Api.SearchAppApi, StartupError>)
  {
    match Config.SearchKey(config)
    case Err(e) => Err(ConfigFailure(e))
    case Ok(sk) =>
      match Config.AppKey(config)
      case Err(e) => Err(ConfigFailure(e))
      case Ok(ak) =>
        match Config.BaseUrl(config)
        case Err(e) => Err(ConfigFailure(e))
        case Ok(url) =>
          match Config.Schema(config)
          case Err(e) => Err(ConfigFailure(e))
          case Ok(schema) =>
            match Api.NewSearchAppApi(Some(sk), Some(ak), Some(url), Some(schema), apiDefaults)
            case Err(e) => Err(ApiFailure(e))
            case Ok(api) => Ok(api)
  }

  /** The main program up to the walk (fs_watch.py:217-232): read `watch_dir`
      from the configuration, build the client, let `-d` override the
      directory, and raise `WalkException` when none is left. */
  function StartMain(config: Config.FSConfig, apiDefaults: Config.FSConfig, optionsDir: Option<string>): (r: Result<Startup, StartupError>)
    ensures Config.WatchDir(config).Err? ==> r == Err(ConfigFailure(Config.NameError("ConfigParser")))
    ensures r.Ok? ==> r.value.watchDir != ""
    ensures r.Ok? ==> r.value.watchDir == (if Api.Truthy(optionsDir) then optionsDir.value else Config.WatchDir(config).value)
    ensures r.Ok? ==> ConfiguredApi(config, apiDefaults) == Ok(r.value.api)
    ensures r == Err(WalkException) <==>
      && Config.WatchDir(config) == Ok("") && ConfiguredApi(config, apiDefaults).Ok? && !Api.Truthy(optionsDir)
  {
    match Config.WatchDir(config)
    case Err(e) => Err(ConfigFailure(e))
    case Ok(configured) =>
      match ConfiguredApi(config, apiDefaults)
      case Err(e) => Err(e)
      case Ok(api) =>
        var watchDir := if Api.Truthy(optionsDir) then optionsDir.value else configured;
        if watchDir == "" then Err(WalkException) else Ok(Startup(watchDir, api))
  }

  /** The watcher: the session's view of `filedata` and the calls made to the
      sink, with the host services and the client it was built with. */
  class Watcher {
    const host: Host
    const api: Api.SearchAppApi
    var ledger: seq<FileData>
    var nextId: nat
    var sinkLog: seq<Api.Post>

    function Current(): State
      reads this
    {
      State(Table(ledger, nextId), sinkLog)
    }

    ghost predicate Valid()
      reads this
    {
      Keyed(Table(ledger, nextId))
    }

    /** A watcher over an existing table, before any post. */
    constructor (host: Host, api: Api.SearchAppApi, table: Table)
      requires Keyed(table)
      ensures Valid()
      ensures this.host == host && this.api == api
      ensures Current() == State(table, [])
    {
      this.host := host;
      this.api := api;
      ledger := table.rows;
      nextId := table.nextId;
      sinkLog := [];
    }

    /** Commit a row and post the file, as `on_created` and the scan do. */
    method Record(p: Path, info: Info)
      requires Valid()
      modifies this
      ensures Valid()
      ensures Current() == RecordAndPost(api, old(Current()), p, info, 200).state
    {
      var fileObj := NewFileData(p, info.md5, info.owner, info.group, info.filesize, info.fileperm, info.mtime);
      ledger := ledger + [fileObj.(id := Some(nextId))];
      nextId := nextId + 1;
      sinkLog := sinkLog + [Api.PostFor(api, p, info.mimetype, info.owner, info.mtime, info.fileperm, info.filesize)];
    }

    method OnCreated(fs: Snapshot, ev: Event, status: int) returns (r: Outcome<WatchError>)
      requires Valid()
      modifies this
      ensures Valid()
      ensures Step(Current(), r) == CreatedStep(host, api, old(Current()), fs, ev, status)
    {
      if ev.isDirectory {
        return Pass;
      }
      var info := FileInfo(host, fs, ev.srcPath);
      if info.Err? {
        return Pass;
      }
      if info.value.mimetype.Some? {
        Record(ev.srcPath, info.value);
        r := SinkOutcome(status);
      } else {
        r := Pass;
      }
    }

    /** `query(FileData).update(patch)` over the whole table, then commit. */
    method Overwrite(patch: Patch)
      requires Valid()
      modifies this
      ensures Valid()
      ensures ledger == UpdateAll(old(ledger), patch) && nextId == old(nextId) && sinkLog == old(sinkLog)
    {
      UpdateAllKeepsKeys(Table(ledger, nextId), patch);
      ledger := UpdateAll(ledger, patch);
    }

    method OnModified(fs: Snapshot, ev: Event, status: int) returns (r: Outcome<WatchError>)
      requires Valid()
      modifies this
      ensures Valid()
      ensures Step(Current(), r) == ModifiedStep(host, api, old(Current()), fs, ev, status)
    {
      if ev.isDirectory {
        return Pass;
      }
      var info := FileInfo(host, fs, ev.srcPath);
      if info.Err? {
        return Fail(OsFailure(info.error));
      }
      var i := info.value;
      var fileData := StaleRows(ledger, ev.srcPath, i.md5);
      if |fileData| > 0 {
        ModifiedStepFires(host, api, Current(), fs, ev, status, i);
        Overwrite(PatchOf(i));
        sinkLog := sinkLog + [PostOf(api, ev.srcPath, i)];
        r := SinkOutcome(status);
      } else {
        ModifiedStepQuiet(host, api, Current(), fs, ev, status, i);
        r := Pass;
      }
    }

    method OnDeleted(ev: Event) returns (r: Outcome<WatchError>)
      ensures Step(Current(), r) == DeletedStep(Current(), ev)
    {
      r := Pass;
    }

    method Dispatch(fs: Snapshot, ev: Event, status: int) returns (r: Outcome<WatchError>)
      requires Valid()
      modifies this
      ensures Valid()
      ensures Step(Current(), r) == DispatchStep(host, api, old(Current()), fs, ev, status)
    {
      match ev.kind
      case Created => r := OnCreated(fs, ev, status);
      case Modified => r := OnModified(fs, ev, status);
      case Deleted => r := OnDeleted(ev);
      case Moved => r := Pass;
    }

    /** One walked file of the scan; `Fail` means the scan stops. */
    method ScanOne(allowed: set<Option<string>>, fs: Snapshot, path: Path, status: int)
      returns (r: Outcome<WatchError>)
      requires Valid()
      modifies this
      ensures Valid()
      ensures Step(Current(), r) == ScanFile(host, api, allowed, old(Current()), fs, path, status)
    {
      var info := FileInfo(host, fs, path);
      if info.Err? {
        return Fail(OsFailure(info.error));
      }
      var i := info.value;
      r := Pass;
      if i.mimetype in allowed {
        var fd := NewFileData(path, i.md5, i.owner, i.group, i.filesize, i.fileperm, i.mtime);
        var sameHash := fd.md5Hash == i.md5;
        var seen := Where(ledger, (row: FileData) => row.name == fd.name && sameHash);
        if |seen| == 0 {
          Record(path, i);
          r := SinkOutcome(status);
        }
      }
    }

    /** The start-up scan: the nested loops over `os.walk`'s directories and
      their files. `allowed` is `config.mimetypes.values()`. */
    method Scan(allowed: set<Option<string>>, fs: Snapshot, walk: seq<(Path, seq<string>)>, status: Path -> int)
      returns (r: Outcome<WatchError>)
      requires Valid()
      modifies this
      ensures Valid()
      ensures Step(Current(), r) == ScanSpec(host, api, allowed, Step(old(Current()), Pass), fs, WalkPaths(walk), status)
    {
      ghost var goal := ScanSpec(host, api, allowed, Step(Current(), Pass), fs, WalkPaths(walk), status);
      for i := 0 to |walk|
        invariant Valid()
        invariant ScanSpec(host, api, allowed, Step(Current(), Pass), fs, WalkPaths(walk[i..]), status) == goal
      {
        var root, files := walk[i].0, walk[i].1;
        WalkPathsFrom(walk, i);
        ghost var rest := WalkPaths(walk[i + 1..]);
        for j := 0 to |files|
          invariant Valid()
          invariant ScanSpec(host, api, allowed, Step(Current(), Pass), fs, Joined(root, files)[j..] + rest, status) == goal
        {
          ghost var here := Joined(root, files)[j..] + rest;
          assert here[1..] == Joined(root, files)[j + 1..] + rest;
          var path := PathJoin(root, files[j]);
          assert here[0] == path;
          ScanUnfold(host, api, allowed, Current(), fs, here, status);
          r := ScanOne(allowed, fs, path, status(path));
          if r.Fail? {
            return;
          }
        }
        assert Joined(root, files)[|files|..] + rest == rest;
      }
      assert walk[|walk|..] == [];
      r := Pass;
    }
  }
}
