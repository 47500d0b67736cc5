/** The `filedata` table: its record type `FileData`, its `__repr__`, and the
    three things the watcher does with it through a session: add a row and
    commit, count the rows a filter selects, and run an `update` over a query. */
module Datastore {
  import opened Wrappers

  /** The `datetime` stored in the `mtime` column, taken as an opaque number. */
  type Timestamp = int

  /** One row of `filedata`. `id` is the primary key: the constructor leaves it
      unset (`None`) and the store assigns it when the row is committed. No
      column is unique apart from `id`, so several rows may share a `name`. */
  datatype FileData = FileData(
    id: Option<nat>,
    name: string,
    md5Hash: string,
    owner: string,
    group: Option<string>,
    filesize: nat,
    permissions: string,
    mtime: Timestamp)

  /** `FileData(name, md5_hash, owner, group, filesize, permissions, mtime)`:
      the seven arguments are stored verbatim and the key stays unassigned. */
  function NewFileData(name: string, md5Hash: string, owner: string, group: Option<string>,
                       filesize: nat, permissions: string, mtime: Timestamp): (fd: FileData)
    ensures fd.id.None?
    ensures fd.name == name && fd.md5Hash == md5Hash && fd.owner == owner && fd.group == group
    ensures fd.filesize == filesize && fd.permissions == permissions && fd.mtime == mtime
  {
    FileData(None, name, md5Hash, owner, group, filesize, permissions, mtime)
  }

  /** `__repr__`: the name and the owner separated by one space; the group and
      the hash are handed to `format` but have no placeholder. */
  function Repr(fd: FileData): string
  {
    fd.name + " " + fd.owner
  }

  /** Cuts `s` at its first space: what comes before it and what comes after. */
  function SplitAtSpace(s: string): (r: (string, string))
    ensures ' ' !in r.0
    ensures ' ' in s ==> s == r.0 + " " + r.1
    ensures ' ' !in s ==> r == (s, "")
  {
    if s == [] then ("", "")
    else if s[0] == ' ' then ("", s[1..])
    else
      var rest := SplitAtSpace(s[1..]);
      assert s == [s[0]] + s[1..];
      ([s[0]] + rest.0, rest.1)
  }

  /** The representation loses nothing of the name and the owner as long as the
      name holds no space. */
  lemma {:induction false} ReprRecoversNameAndOwner(fd: FileData)
    requires ' ' !in fd.name
    ensures SplitAtSpace(Repr(fd)) == (fd.name, fd.owner)
  {
    CutAtFirstSpace(fd.name, fd.owner);
  }

  lemma {:induction false} CutAtFirstSpace(a: string, b: string)
    requires ' ' !in a
    ensures SplitAtSpace(a + " " + b) == (a, b)
  {
    var s := a + " " + b;
    if a != [] {
      assert s[1..] == a[1..] + " " + b;
      CutAtFirstSpace(a[1..], b);
      assert [a[0]] + a[1..] == a;
    } else {
      assert s[1..] == b;
    }
  }

  /** Two rows with the same name and owner print the same, whatever their
      group, hash, size, permissions, time stamp and key. */
  lemma ReprIgnoresOtherColumns(a: FileData, b: FileData)
    requires a.name == b.name && a.owner == b.owner
    ensures Repr(a) == Repr(b)
  {
  }

  /** The table as the watcher sees it: its rows in insertion order and the
      next key the store will hand out. */
  datatype Table = Table(rows: seq<FileData>, nextId: nat)

  /** Every committed row carries a key, the keys are below `nextId`, and no
      two rows share one: the primary-key constraint. */
  ghost predicate Keyed(t: Table)
  {
    && (forall i :: 0 <= i < |t.rows| ==> t.rows[i].id.Some? && t.rows[i].id.value < t.nextId)
    && (forall i, j :: 0 <= i < j < |t.rows| ==> t.rows[i].id != t.rows[j].id)
  }

  /** `session.add(fd); session.commit()`: exactly one row is appended, under
      a fresh key; the rows already there are untouched. */
  function Insert(t: Table, fd: FileData): (t': Table)
    ensures |t'.rows| == |t.rows| + 1 && t'.rows[..|t.rows|] == t.rows
    ensures t'.rows[|t.rows|] == fd.(id := Some(t.nextId))
    ensures Keyed(t) ==> Keyed(t')
  {
    Table(t.rows + [fd.(id := Some(t.nextId))], t.nextId + 1)
  }

  /** `session.query(FileData).filter(...)`: the rows the filter keeps, in
      table order. */
  function Where(rows: seq<FileData>, keep: FileData -> bool): (r: seq<FileData>)
    ensures |r| <= |rows|
    ensures forall x :: x in r <==> x in rows && keep(x)
  {
    if rows == [] then []
    else (if keep(rows[0]) then [rows[0]] else []) + Where(rows[1..], keep)
  }

  /** The columns `update` sets in `on_modified`. */
  datatype Patch = Patch(md5Hash: string, filesize: nat, owner: string, group: Option<string>,
                         mtime: Timestamp, permissions: string)

  /** `session.query(FileData).update(patch)` with no filter: every row gets the
      patched columns; keys and names stay as they were. */
  function UpdateAll(rows: seq<FileData>, p: Patch): (r: seq<FileData>)
    ensures |r| == |rows|
    ensures forall i :: 0 <= i < |r| ==> r[i].id == rows[i].id && r[i].name == rows[i].name
    ensures forall i :: 0 <= i < |r| ==>
      && r[i].md5Hash == p.md5Hash && r[i].filesize == p.filesize && r[i].owner == p.owner
      && r[i].group == p.group && r[i].mtime == p.mtime && r[i].permissions == p.permissions
  {
    seq(|rows|, i requires 0 <= i < |rows| =>
      rows[i].(md5Hash := p.md5Hash, filesize := p.filesize, owner := p.owner,
               group := p.group, mtime := p.mtime, permissions := p.permissions))
  }

  /** An update keeps the keys, so it keeps the primary-key constraint. */
  lemma UpdateAllKeepsKeys(t: Table, p: Patch)
    ensures Keyed(t) ==> Keyed(Table(UpdateAll(t.rows, p), t.nextId))
  {
    var r := UpdateAll(t.rows, p);
    assert forall i :: 0 <= i < |r| ==> r[i].id == t.rows[i].id;
  }
}
