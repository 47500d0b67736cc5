# fswatch: a Dafny model of the ingestion and deduplication core

fswatch watches a directory tree and sends each interesting file to a search
index, the "sink". It records what it has sent in a `filedata` table.

- At start-up it walks the tree. A file is posted when its MIME type belongs to
  the configured extension table and the table has no row with that name.
- Afterwards, watchdog events drive the `Watcher` handlers:
  - a created file is recorded and posted;
  - a modified file is re-posted when the table holds a stale row for it;
  - deletions and moves are only logged.

The model works over three abstractions:

- a filesystem snapshot, a map from path to the `os.stat` fields or an `OSError`;
- a ledger, the rows of `filedata` in insertion order, with the next key the
  store hands out;
- a sink log, the sequence of `do_post` calls.

Every handler and the scan is written twice:

- as a function from the old ledger and sink log to the new ones, plus whether
  the code returned or raised, about which the properties are proved;
- as a method of the class `FsWatch.Watcher`, which holds the ledger and the
  sink log as fields and is proved to follow that function. The scan method
  keeps the nested loops over the directories and files of the walk.

Files:

- `wrappers.dfy`: `Option`, `Result` and `Outcome`.
- `text.dfy`: `str.split(',')`, its inverse, and a last-occurrence search.
- `datastore.dfy`: the `FileData` record, its `__repr__`, and the three ways
  the code uses the table: add and commit, count a filter, unfiltered update.
- `config.dfy`: `FSConfig`, meaning the fixed accessors, `watch_dir` and the
  `_get_mimetypes` loop.
- `wd_api.dfy`: the `SearchAppApi` constructor, its URLs, and the status checks
  of `init_schema` and `do_post`.
- `file_meta.dfy`: `_file_mimetype`, `_file_hash`, `_fileperms`,
  `_groupname`, `fileinfo` and `os.path.join`.
- `fs_watch.dfy`: the handlers, the scan, the start-up resolution of the watch
  directory, and the `Watcher` class.

Python behaviour the model follows as written:

- `fs_watch.py` is Python 2 code (`0777`, `hashlib.md5` of a `str`), so
  `oct()` yields `"0644"` for permissions 644 and `"0"` for zero.
- The "hash" is the MD5 of the path string, not of the file's contents. So
  `on_modified` never fires on a row this code wrote (`ModifiedIgnoresOwnRows`).
- `on_modified`'s `update` has no filter, so it overwrites every row.
- The scan filter `fd.md5_hash==md5` is a Python comparison that is always
  true, so the scan deduplicates on the name alone.
- `on_created` does not deduplicate at all.
- In `watch_dir`, reaching the `except ConfigParser.NoOptionError` clause raises
  `NameError`, because the module imports `configparser`. The main program
  therefore stops at fs_watch.py:219 whenever the option is missing, even when
  `-d` is given (`StartMain`).
- In `SearchAppApi.__init__`, the test `not search_key or app_key` means "No app
  name provided" is never raised.
- The `init_schema` failure path calls `req.reason()`, which raises `TypeError`.

## Model

| member | source | states |
|---|---|---|
| Datastore.NewFileData | datastore.py:32-39 | the seven constructor arguments are stored verbatim in their fields; the key `id` stays unassigned |
| Datastore.ReprRecoversNameAndOwner | datastore.py:41-42 | for a name without a space, `__repr__` splits back into exactly the name and the owner |
| Datastore.ReprIgnoresOtherColumns | datastore.py:41-42 | rows with the same name and owner print the same, whatever their group, hash and other columns |
| Datastore.SplitAtSpace | datastore.py:42 | the inverse used for `__repr__`: the part before the first space holds no space, and the two parts rebuild the string |
| Datastore.Insert | fs_watch.py:89-90 | `session.add` then `commit` (here and at fs_watch.py:248-249) appends exactly one row under the next key and leaves existing rows alone; the primary-key invariant `Keyed` is preserved; nothing stops two rows sharing a name |
| Datastore.Where | fs_watch.py:121 | a query filter keeps exactly the rows satisfying the predicate, and no more rows than the table holds |
| Datastore.UpdateAll | fs_watch.py:123-131 | the unfiltered `update` sets hash, size, owner, group, mtime and permissions on every row, and keeps every key and name |
| Text.JoinSplit | config.py:65 | joining the pieces of `s.split(',')` with ',' gives back `s` |
| Text.SplitJoin | config.py:65 | splitting a ','-join of comma-free pieces gives back the pieces |
| Text.Split | config.py:65 | `split` gives at least one piece and no piece contains the separator |
| Config.Get | config.py:25 | `ConfigParser.get`: the value of the option when present; `NoSectionError` or `NoOptionError` otherwise |
| Config.AccessorsReadFixedSections | config.py:24-49 | the `db*` accessors and `watch_dir` depend only on the `fswatch` section; `app_key`, `search_key`, `schema` and `base_url` only on the `searchapp` section |
| Config.WatchDir | config.py:54-60 | gives the configured value when the option is present; otherwise the result is always `NameError("ConfigParser")`, never `None` |
| Config.FileTypeItems | config.py:65 | succeeds iff `file-types` exists and is non-empty; the items are comma-free, and joined with ',' they give the first option's value |
| Config.GetMimetypes | config.py:62-71 | the loop builds a table whose keys are exactly the listed extensions, each mapped as the dotted `types_map` lookup or `None` says; it has no more entries than the list; the section errors propagate |
| Config.Load | config.py:16-22 | the configuration keeps the parsed file and holds the table `_get_mimetypes` built, or fails with its error |
| Config.UnmappedExtensionAddsNone | config.py:68-70 | an extension without a MIME type stays in the table, so `None` is among the table's values |
| Config.KnownExtensionMapsDotted | config.py:67 | a known extension `ext` maps to `types_map['.' + ext]` |
| Config.RepeatedExtensionSingleKey | config.py:63-71 | an extension listed twice gives one key, so the table has fewer entries than the list has items |
| Api.Defaulted | wd_api.py:42-50 | `base_url` and `schema` are the argument when truthy, otherwise the configured value, whose lookup error propagates |
| Api.NewSearchAppApi | wd_api.py:35-53 | raises `No customer key provided` iff the search key is falsy; never raises `No app name provided`; keeps both keys as given; an accepted client has the defaulted URL and schema, and with a truthy search key it is accepted iff those resolve |
| Api.EmptyAppKeyAccepted | wd_api.py:36-40 | an empty application key with a given search key, URL and schema builds a client |
| Api.IndexUrlLayout | wd_api.py:55-77 | the index URL is `base_url + "/_search/default/" + schema`, since the application name is the fixed `default` |
| Api.IndexUrlDeterminesSchema | wd_api.py:72-76 | for one base URL, two clients with the same index URL have the same schema |
| Api.SchemaEndpointLayout | wd_api.py:118 | the mapping endpoint is `base_url + "/_search/default/_mapping/" + schema`, and it never equals the index URL |
| Api.InitSchemaResult | wd_api.py:120-121 | `init_schema` returns iff the status is 200; otherwise it raises, through the uncallable `reason` |
| Api.PostFor | wd_api.py:123-139 | a post goes to the index URL and carries exactly the arguments it was called with |
| Api.DoPostResult | wd_api.py:144-145 | `do_post` raises `SearchAppIndexException` iff the status is not 200 |
| FileMeta.Stat | fs_watch.py:161 | a path absent from the snapshot raises `OSError` (no such file); a path it holds gives its stat fields or its error |
| FileMeta.Tail | fs_watch.py:141 | the last component contains no '/', is a suffix of the path, and is preceded by a '/' when shorter than the path |
| FileMeta.TailAfterSlash | fs_watch.py:141 | the last component of `dir/name` is `name` |
| FileMeta.ExtSuffix | fs_watch.py:141 | `splitext` gives the part from the last dot on, starting with '.' and holding no other dot; it is empty iff there is no dot or only dots precede the last one |
| FileMeta.ExtSuffixOfStem | fs_watch.py:141 | `stem.ext`, for a stem that is not all dots, has suffix `.ext` |
| FileMeta.LeadingDotIsNoExtension | fs_watch.py:141 | a name whose only dot is its first character has no extension |
| FileMeta.FileMimetype | fs_watch.py:135-147 | a MIME type, when there is one, is a non-empty value of `types_map` |
| FileMeta.MimetypeIgnoresDirectory | fs_watch.py:141 | the MIME type depends on the last path component only |
| FileMeta.MimetypeOfExtension | fs_watch.py:141-147 | `dir/stem.ext` gets the `types_map` entry of `.ext`, and `None` when it is missing or empty |
| FileMeta.NoExtensionNoMimetype | fs_watch.py:141-147 | a name without an extension has no MIME type |
| FileMeta.AndLowMask | fs_watch.py:168 | masking with `2^k - 1` equals the remainder modulo `2^k` for every number |
| FileMeta.PermBits | fs_watch.py:168 | `mode & 0o777` is `mode % 512`, so it lies in 0..511 |
| FileMeta.OctRoundTrip | fs_watch.py:168 | reading Python 2's `oct(n)` back as octal gives `n` |
| FileMeta.FilePermsShape | fs_watch.py:163-168 | the permission string has one to four characters, starts with '0', and reads back as `mode & 0o777` < 512 |
| FileMeta.PermsIgnoreHighBits | fs_watch.py:168 | bits above the nine permission bits (file type, setuid, setgid, sticky) never change the permission string |
| FileMeta.GroupName | fs_watch.py:184-194 | there is no group exactly on `win32`; on any other platform the group is the name of the file's group |
| FileMeta.FileInfo | fs_watch.py:38-58 | `fileinfo` raises exactly when the stat does, with its error; otherwise it gives the path's hash and MIME type and the stat's owner, group, size, permission string and mtime |
| FileMeta.FingerprintIgnoresContents | fs_watch.py:149-154 | two snapshots in which a file differs give it the same hash and MIME type |
| FileMeta.JoinedTail | fs_watch.py:235 | `os.path.join(root, fname)` has `fname` as its last component |
| FsWatch.SinkOutcome | fs_watch.py:91 | a handler's `do_post` call raises iff the status is not 200 |
| FsWatch.RecordAndPost | fs_watch.py:89-91 | exactly one row is appended after the old ones: the event's row under the next key, named by the path; exactly one post of that path is appended to the log; the call raises iff the status is not 200, and the row stays either way |
| FsWatch.CreatedStep | fs_watch.py:60-99 | `on_created` preserves the primary-key invariant, and keeps a ledger whose rows all carry their own path's hash in that state |
| FsWatch.ModifiedStep | fs_watch.py:108-133 | `on_modified` preserves the primary-key invariant and never adds or removes a row |
| FsWatch.IgnoredEventsChangeNothing | fs_watch.py:60-133 | directory events (lines 69-70 and 117-118), deletions (101-106) and moves change neither the ledger nor the sink log, and raise nothing |
| FsWatch.CreatedSkipsUnreadableAndUntyped | fs_watch.py:72-79 | a created file whose `fileinfo` raises `OSError`, or whose MIME type is `None`, is neither recorded nor posted, and nothing is raised |
| FsWatch.CreatedRecordsOnceThenPosts | fs_watch.py:79-91 | a created file with a MIME type appends exactly one row, named by the event path and under a new key, then exactly one post; the handler raises iff the status is not 200 |
| FsWatch.RepeatedCreateDuplicates | fs_watch.py:79-91 | two create events for one file append two rows with that name and distinct keys, and post twice |
| FsWatch.StaleRowsNonEmpty | fs_watch.py:121-122 | the filter count is positive iff some row has the event's name and a different hash |
| FsWatch.ModifiedFiresOnStaleRow | fs_watch.py:120-133 | `on_modified` posts iff some row has the event's name and a hash other than the fresh one; otherwise ledger and log are unchanged and nothing is raised |
| FsWatch.ModifiedOverwritesEveryRow | fs_watch.py:123-133 | when it fires, every row, whatever its name, gets the new hash, size, owner, group, mtime and permissions, keeping key and name; one post follows; it raises iff the status is not 200 |
| FsWatch.ModifiedRaisesOnUnreadable | fs_watch.py:72-76 | for a file whose `fileinfo` raises `OSError`, `on_modified` lets the error escape (line 120 has no `try`), while `on_created` swallows it; neither changes ledger or log |
| FsWatch.ModifiedIgnoresOwnRows | fs_watch.py:121-122 | on a ledger whose rows carry their own path's hash (as every row this code writes does), `on_modified` changes nothing, whatever changed in the file |
| FsWatch.RunEvents | fs_watch.py:256-259 | a run of events handed to the scheduled watcher one after the other keeps the primary-key invariant, only appends to the sink log, and stops at the first raise |
| FsWatch.InertRunChangesNothing | fs_watch.py:60-118 | a run of directory events, deletions and moves leaves ledger and sink log unchanged and raises nothing |
| FsWatch.SelfWrittenRunOnlyAppends | fs_watch.py:121-154 | starting from rows this code wrote, no event of a run ever rewrites a row: the ledger only grows and every row keeps its own path's hash |
| FsWatch.ScanFile | fs_watch.py:235-255 | one walked file keeps the primary-key invariant and the own-hash property, and only appends to the ledger and the sink log |
| FsWatch.ScanSpec | fs_watch.py:233-255 | the whole scan keeps those invariants, only appends, and stops at the first raise |
| FsWatch.ScanFileAppendsIff | fs_watch.py:236-250 | a walked file is recorded (the new row named by its path) and posted iff `fileinfo` succeeds, its MIME type is among the table's values, and no row has its name; otherwise nothing changes; the scan stops iff `fileinfo` raises or the post is rejected |
| FsWatch.ScanRecordsAdmitted | fs_watch.py:233-250 | after a scan that completes, every walked file whose MIME type is among the table's values has a row with its name |
| FsWatch.ScanOverRecordedChangesNothing | fs_watch.py:247 | a scan over files that all have rows appends nothing and posts nothing, on any filesystem and whatever the sink answers |
| FsWatch.RescanAppendsNothing | fs_watch.py:233-250 | after a completed scan, a second scan over the same tree appends and posts nothing, even if the contents changed |
| FsWatch.ScanAdmitsUntypedFiles | fs_watch.py:236 | with an extension listed that has no MIME type, the scan records and posts a new file that has no MIME type, with `None` as its post's type |
| FsWatch.Joined | fs_watch.py:233-235 | the paths of one walked directory are its root joined to each file name, in order |
| FsWatch.StartMain | fs_watch.py:217-232 | a missing `watch_dir` stops start-up with `NameError` before `-d` is consulted; otherwise the watch root is `-d` when truthy, else the configured value; start-up raises `WalkException` iff that root is empty; a successful start-up has a non-empty root and the configured client |
| FsWatch.Watcher.constructor | fs_watch.py:33-36 | a watcher starts over the existing table, with its host services and client and an empty sink log |
| FsWatch.Watcher.Record | fs_watch.py:89-91 | appends the row under the next key and logs one post, keeping the primary-key invariant |
| FsWatch.Watcher.OnCreated | fs_watch.py:60-99 | the new ledger, sink log and outcome are those of `CreatedStep` on the old ones |
| FsWatch.Watcher.OnModified | fs_watch.py:108-133 | the new ledger, sink log and outcome are those of `ModifiedStep` on the old ones |
| FsWatch.Watcher.OnDeleted | fs_watch.py:101-106 | changes nothing and returns |
| FsWatch.Watcher.Dispatch | fs_watch.py:28 | each event goes to the matching handler, with moves only logged, as `DispatchStep` says |
| FsWatch.Watcher.ScanOne | fs_watch.py:235-255 | one walked file changes ledger, sink log and outcome as `ScanFile` says |
| FsWatch.Watcher.Scan | fs_watch.py:233-255 | the nested loops over the walk change ledger, sink log and outcome as `ScanSpec` says over the joined paths, keeping the primary-key invariant |

Some definitions that model source functions have no row of their own:
- Rows about them carry their properties:
  - `Datastore.Repr`: `ReprRecoversNameAndOwner` and `ReprIgnoresOtherColumns`.
  - `FileMeta.FileHash`: `FingerprintIgnoresContents` and `ModifiedIgnoresOwnRows`.
  - `FileMeta.FilePerms`: `FilePermsShape`, `OctRoundTrip` and `PermsIgnoreHighBits`.
  - `Api.GetRealAppName` and `Api.GetIndexUrl`: `IndexUrlLayout` and `IndexUrlDeterminesSchema`.
  - `Api.InitSchemaEndpoint`: `SchemaEndpointLayout`.
  - `FsWatch.ConfiguredApi`: `StartMain`.
  - `FsWatch.DispatchStep`: `IgnoredEventsChangeNothing`, `Watcher.Dispatch` and `RunEvents`.
- `FsWatch.Watcher.Overwrite` is the `update` step that `Watcher.OnModified` calls, proved there.

## Left out

- The watchdog `Observer`, the `sleep` loop and the `KeyboardInterrupt` shutdown (fs_watch.py:256-268): these are OS event delivery and threads. Events are an input value, and `Watcher.Dispatch` stands for watchdog's dispatch.
- `os.stat`, `getpwuid`, `grp.getgrgid`, `datetime.fromtimestamp`, `hashlib.md5`, `mimetypes.types_map` and `sys.platform` are foreign calls. They are parameters: a snapshot of resolved stat fields, and a `Host` with an MD5 function, the types map and the platform. A `KeyError` from `getpwuid` or `getgrgid` is not modelled.
- FileMeta.GroupName keeps the `win32` branch of `_groupname` (fs_watch.py:191-192), but no running program reaches it. fs_watch.py:14-15 imports `pwd` and `grp`, which exist only on Unix, and the path functions follow POSIX rules. The `None` group is therefore not a live case.
- Datastore.Insert and Datastore.UpdateAll, and with them `RecordAndPost`, `ModifiedStep` and the scan, do not model the width of the `filesize` column. It is declared `Column(Integer)` (datastore.py:28) on a PostgreSQL engine, so it is a 32-bit `INTEGER`. For a file of 2^31 bytes or more, the commit in `on_created` (fs_watch.py:90) or in the scan (fs_watch.py:249), or the `update` in `on_modified` (fs_watch.py:123), raises before any post. The handler or the scan stops there, and nothing is posted. The model records and posts such a file whatever its size.
- The SQLAlchemy engine and sessions (datastore.py:45-56) are not modelled; the table is one ledger. `on_modified` updates through the module-level `session` (fs_watch.py:123) but commits through `self.session` (fs_watch.py:132). Nothing commits the module-level `session` after the scan, so in the program that update never becomes durable, and the next `on_modified` filter, which runs through `self.session` (fs_watch.py:121), still sees the old hashes. Two modify events on a stale row therefore post twice in the program. The model applies the update as committed, so it posts once, and `ModifiedOverwritesEveryRow` describes the update that session holds, not the durable table.
- HTTP is not modelled: `requests`, `HTTPBasicAuth` (`get_auth`), the multipart body and opening the uploaded file (wd_api.py:119, 130-146). A post is a log entry plus a status parameter.
- Api.PostFor: records `perms` and `size` as arguments of the call, although the multipart body leaves them out (wd_api.py:137-138). The fields actually sent are not modelled.
- The `init_schema` request body (wd_api.py:89-116) is left out. Only its endpoint and status check are modelled, and the main program never calls `init_schema`.
- The `os.walk` error path (`onerror` receives `None`) is left out. The walk is a given list of (root, file names) pairs, and a missing root yields no files.
- `OptionParser`, `logging`, `print` and reading the configuration file from disk (config.py:17-21) are left out. The parsed file is a map from section to its options in order.
- ConfigParser's `DEFAULT` section merging, option-name case folding and interpolation are left out.
- `FSConfig.filemagic` (config.py:51-52) does nothing and is left out.
- The import-name mismatches (`Config` versus `FSConfig`, `fs_config` versus `config`) are read as the single `FSConfig` class.
- The tests (tests/test_main.py) are left out. The API tests only check that mocks were called, and the configuration tests compare the accessors with a `fswatch.conf` that is not in the repository.
- Per-path serialisation and concurrency between handlers are left out; the code has none.
- `RunEvents` hands events to the watcher one at a time, each with the filesystem as its handler finds it. It ends the run at the first exception a handler raises, as an uncaught exception ends watchdog's dispatching thread. Watchdog's event queue and its coalescing of events are not modelled.
- FileMeta.FileInfo: the `mtime` is the stat's time stamp as a number, not a `datetime` object.
