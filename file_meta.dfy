/** The pure helpers of `Watcher` in fs_watch.py: how a path is classified by
    its extension, how the "hash" and the permission string are computed, and
    `fileinfo`, which gathers them with the `os.stat` fields of the file. */
module FileMeta {
  import opened Wrappers
  import Text

  type Path = string

  /** What the watcher takes from its host: `hashlib.md5(..).hexdigest()`,
      `mimetypes.types_map` after `mimetypes.init()`, and `sys.platform`. */
  datatype Host = Host(md5Hex: string -> string, typesMap: map<string, string>, platform: string)

  /** The `os.stat` fields the watcher reads, with the uid and gid already
      resolved to names by `getpwuid` and `getgrgid`. */
  datatype FileStat = FileStat(mode: nat, size: nat, owner: string, group: string, mtime: int)

  /** Why `os.stat` raises `OSError`. */
  datatype OsError = NoSuchFile | AccessDenied

  /** The filesystem at the moment a handler or the scan looks at it. */
  type Snapshot = map<Path, Result<FileStat, OsError>>

  /** `os.stat(p)`: a path the snapshot does not hold does not exist. */
  function Stat(fs: Snapshot, p: Path): (r: Result<FileStat, OsError>)
    ensures p !in fs ==> r == Err(NoSuchFile)
    ensures p in fs ==> r == fs[p]
  {
    if p in fs then fs[p] else Err(NoSuchFile)
  }

  /** `os.path.split(p)[-1]`: what follows the last `/`. */
  function Tail(p: Path): (r: string)
    ensures '/' !in r
    ensures |r| <= |p| && r == p[|p| - |r|..]
    ensures |r| < |p| ==> p[|p| - |r| - 1] == '/'
  {
    var i := Text.RFind(p, '/') + 1;
    assert forall k :: 0 <= k < |p| - i ==> p[i..][k] == p[i + k];
    p[i..]
  }

  /** The last component of `dir + "/" + name` is `name`. */
  lemma TailAfterSlash(dir: Path, name: string)
    requires '/' !in name
    ensures Tail(dir + "/" + name) == name
  {
    Text.RFindAtSeparator(dir, '/', name);
    assert (dir + "/" + name)[|dir| + 1..] == name;
  }

  predicate AllDots(s: string)
  {
    forall k :: 0 <= k < |s| ==> s[k] == '.'
  }

  /** `os.path.splitext(tail)[1]` for a component without `/`: everything from
      the last dot on, unless only dots come before that dot (leading dots do
      not start an extension); otherwise the empty string. */
  function ExtSuffix(tail: string): (r: string)
    ensures r != "" ==> r[0] == '.' && '.' !in r[1..]
    ensures r != "" ==> |r| < |tail| && r == tail[|tail| - |r|..] && !AllDots(tail[..|tail| - |r|])
    ensures r == "" <==> '.' !in tail || AllDots(tail[..Text.RFind(tail, '.')])
  {
    var dot := Text.RFind(tail, '.');
    if dot >= 0 && !AllDots(tail[..dot]) then
      assert forall k :: 0 <= k < |tail| - dot - 1 ==> tail[dot..][1..][k] == tail[dot + 1 + k];
      tail[dot..]
    else ""
  }

  /** A name made of a stem with something other than dots, a dot and a
      dot-free extension has exactly that extension. */
  lemma ExtSuffixOfStem(stem: string, ext: string)
    requires !AllDots(stem) && '.' !in ext
    ensures ExtSuffix(stem + "." + ext) == "." + ext
  {
    var tail := stem + "." + ext;
    Text.RFindAtSeparator(stem, '.', ext);
    assert tail[..|stem|] == stem;
    assert tail[|stem|..] == "." + ext;
  }

  /** A name whose only dot is its first character has no extension. */
  lemma LeadingDotIsNoExtension(name: string)
    requires '.' !in name
    ensures ExtSuffix("." + name) == ""
  {
    Text.RFindAtSeparator("", '.', name);
    assert "" + "." + name == "." + name;
  }

  /** `mimetypes.types_map` as Python ships it: every key is a dot followed by
      at least one character. */
  ghost predicate DottedKeys(typesMap: map<string, string>)
  {
    forall k :: k in typesMap ==> |k| > 1 && k[0] == '.'
  }

  /** `_file_mimetype`: `types_map.get(suffix) or None` for the suffix of the
      last component. The `IndexError` branch is dead, since `split` always
      yields a pair. */
  function FileMimetype(typesMap: map<string, string>, p: Path): (r: Option<string>)
    ensures r.Some? ==> r.value != "" && r.value in typesMap.Values
  {
    var suffix := ExtSuffix(Tail(p));
    if suffix in typesMap && typesMap[suffix] != "" then Some(typesMap[suffix]) else None
  }

  /** The classification depends on the last component only. */
  lemma MimetypeIgnoresDirectory(typesMap: map<string, string>, dir: Path, name: string)
    requires '/' !in name
    ensures FileMimetype(typesMap, dir + "/" + name) == FileMimetype(typesMap, name)
  {
    TailAfterSlash(dir, name);
    Text.RFindAtSeparator([], '/', []);
    assert Text.RFind(name, '/') == -1;
  }

  /** A file named `stem.ext` gets the entry of `.ext`, and nothing when that
      entry is missing or empty. */
  lemma MimetypeOfExtension(typesMap: map<string, string>, dir: Path, stem: string, ext: string)
    requires '/' !in stem && '/' !in ext && '.' !in ext && !AllDots(stem)
    ensures FileMimetype(typesMap, dir + "/" + stem + "." + ext) ==
      (if "." + ext in typesMap && typesMap["." + ext] != "" then Some(typesMap["." + ext]) else None)
  {
    var name := stem + "." + ext;
    assert dir + "/" + stem + "." + ext == dir + "/" + name;
    TailAfterSlash(dir, name);
    ExtSuffixOfStem(stem, ext);
  }

  /** Without an extension there is no MIME type. */
  lemma NoExtensionNoMimetype(typesMap: map<string, string>, p: Path)
    requires DottedKeys(typesMap)
    requires ExtSuffix(Tail(p)) == ""
    ensures FileMimetype(typesMap, p) == None
  {
  }

  /** `_file_hash`: the MD5 hex digest of the path string, not of the contents. */
  function FileHash(host: Host, p: Path): string
  {
    host.md5Hex(p)
  }

  /** Python's `&` on non-negative integers, bit by bit. */
  function BitAnd(a: nat, b: nat): nat
  {
    if a == 0 || b == 0 then 0
    else 2 * BitAnd(a / 2, b / 2) + (if a % 2 == 1 && b % 2 == 1 then 1 else 0)
  }

  function Pow2(k: nat): (r: nat)
    ensures r >= 1
  {
    if k == 0 then 1 else 2 * Pow2(k - 1)
  }

  /** `0o777`. */
  const PermMask: nat := 0x1FF

  lemma ModOfDouble(a: nat, p: nat)
    requires p >= 1
    ensures a % (2 * p) == 2 * ((a / 2) % p) + a % 2
  {
    var q, r0 := a / 2, a % 2;
    var m, s := q / p, q % p;
    assert q == p * m + s;
    assert a == 2 * p * m + (2 * s + r0);
    ModUnique(a, 2 * p, m, 2 * s + r0);
  }

  lemma ModUnique(a: int, d: int, m: int, t: int)
    requires d > 0 && a == d * m + t && 0 <= t < d
    ensures a % d == t
  {
    var q, r := a / d, a % d;
    assert a == d * q + r;
    assert d * (q - m) == t - r;
    if q > m {
      MulAtLeast(d, q - m);
    } else if q < m {
      MulAtLeast(d, m - q);
    }
  }

  lemma MulAtLeast(d: int, x: int)
    requires d > 0 && x >= 1
    ensures d * x >= d
  {
  }

  /** Masking with `2^k - 1` keeps the low `k` bits: the remainder modulo `2^k`. */
  lemma {:induction false} AndLowMask(a: nat, k: nat)
    ensures BitAnd(a, Pow2(k) - 1) == a % Pow2(k)
  {
    if k > 0 && a > 0 {
      var p := Pow2(k - 1);
      var b := Pow2(k) - 1;
      assert b == 2 * p - 1;
      assert b / 2 == p - 1 && b % 2 == 1;
      var half := BitAnd(a / 2, p - 1);
      assert BitAnd(a, b) == 2 * half + a % 2;
      AndLowMask(a / 2, k - 1);
      assert half == (a / 2) % p;
      ModOfDouble(a, p);
      assert a % Pow2(k) == a % (2 * p);
    } else if k == 0 {
      assert Pow2(k) == 1;
      assert BitAnd(a, 0) == 0;
    } else {
      ModUnique(0, Pow2(k), 0, 0);
      assert BitAnd(0, Pow2(k) - 1) == 0;
    }
  }

  /** `mode & 0o777`: the nine permission bits; the file type and the
      setuid, setgid and sticky bits are dropped. */
  function PermBits(mode: nat): (r: nat)
    ensures r < 512 && r == mode % 512
  {
    AndLowMask(mode, 9);
    BitAnd(mode, PermMask)
  }

  /** One octal digit. */
  function OctDigit(d: nat): char
    requires d < 8
  {
    ('0' as int + d) as char
  }

  function DigitValue(c: char): nat
  {
    if '0' <= c <= '7' then c as int - '0' as int else 0
  }

  predicate IsOctDigit(c: char)
  {
    '0' <= c <= '7'
  }

  /** The octal digits of a positive number, most significant first. */
  function OctDigits(n: nat): (r: string)
    ensures |r| >= 1 && forall i :: 0 <= i < |r| ==> IsOctDigit(r[i])
  {
    if n < 8 then [OctDigit(n)] else OctDigits(n / 8) + [OctDigit(n % 8)]
  }

  /** Python 2's `oct(n)`: a leading `0` and the octal digits, `"0"` for zero. */
  function Oct(n: nat): (r: string)
    ensures |r| >= 1 && r[0] == '0'
    ensures forall i :: 0 <= i < |r| ==> IsOctDigit(r[i])
  {
    if n == 0 then "0" else "0" + OctDigits(n)
  }

  /** Reading an octal string back, `int(s, 8)` on strings of octal digits. */
  function ParseOct(s: string): nat
  {
    if s == [] then 0 else 8 * ParseOct(s[..|s| - 1]) + DigitValue(s[|s| - 1])
  }

  lemma {:induction false} ParseOctDigits(n: nat)
    ensures ParseOct(OctDigits(n)) == n
  {
    if n >= 8 {
      var s := OctDigits(n);
      assert s[..|s| - 1] == OctDigits(n / 8);
      ParseOctDigits(n / 8);
    }
  }

  lemma {:induction false} ParseOctLeadingZero(s: string)
    ensures ParseOct("0" + s) == ParseOct(s)
  {
    if s != [] {
      var t := "0" + s;
      assert t[..|t| - 1] == "0" + s[..|s| - 1];
      ParseOctLeadingZero(s[..|s| - 1]);
    }
  }

  /** `oct` loses nothing: its string reads back as the number. */
  lemma OctRoundTrip(n: nat)
    ensures ParseOct(Oct(n)) == n
  {
    if n > 0 {
      ParseOctLeadingZero(OctDigits(n));
      ParseOctDigits(n);
    }
  }

  lemma {:induction false} OctDigitsLength(n: nat)
    requires n < 512
    ensures |OctDigits(n)| <= 3
  {
    if n >= 8 {
      OctDigitsLength(n / 8);
      if n / 8 < 8 {
        assert |OctDigits(n / 8)| == 1;
      } else {
        assert |OctDigits(n / 64)| == 1;
      }
    }
  }

  /** `_fileperms`: `oct(mode & 0o777)`. */
  function FilePerms(mode: nat): string
  {
    Oct(PermBits(mode))
  }

  /** The permission string is at most four octal digits starting with `0`
      and reads back as `mode & 0o777`, a number in 0..511. */
  lemma FilePermsShape(mode: nat)
    ensures var s := FilePerms(mode);
      && 1 <= |s| <= 4 && s[0] == '0'
      && ParseOct(s) == BitAnd(mode, PermMask) && ParseOct(s) < 512
  {
    var n := PermBits(mode);
    OctRoundTrip(n);
    if n > 0 {
      OctDigitsLength(n);
    }
  }

  /** Bits above the nine permission bits (file type, setuid, setgid, sticky)
      never change the permission string. */
  lemma PermsIgnoreHighBits(mode: nat, high: nat)
    requires high % 512 == 0
    ensures FilePerms(mode + high) == FilePerms(mode)
  {
    var q, r := (high / 512) + mode / 512, mode % 512;
    assert mode + high == 512 * q + r;
    ModUnique(mode + high, 512, q, r);
    assert PermBits(mode + high) == PermBits(mode);
  }

  /** `_groupname`: no group on Windows, the name of the file's group elsewhere.
      The module imports `pwd` and `grp`, which exist only on Unix, so the
      Windows branch is never reached by a running program. */
  function GroupName(platform: string, st: FileStat): (r: Option<string>)
    ensures r.None? <==> platform == "win32"
    ensures platform != "win32" ==> r == Some(st.group)
  {
    if platform == "win32" then None else Some(st.group)
  }

  /** What `fileinfo` returns: `(owner, group, filesize, md5, mimetype, fileperm, mtime)`. */
  datatype Info = Info(owner: string, group: Option<string>, filesize: nat, md5: string,
                       mimetype: Option<string>, fileperm: string, mtime: int)

  /** `fileinfo(path)`: every field but the hash and the MIME type comes from
      `os.stat`, so the call raises `OSError` exactly when the stat does. */
  function FileInfo(host: Host, fs: Snapshot, p: Path): (r: Result<Info, OsError>)
    ensures r.Err? <==> Stat(fs, p).Err?
    ensures r.Err? ==> r.error == Stat(fs, p).error
    ensures r.Ok? ==> r.value.md5 == FileHash(host, p) && r.value.mimetype == FileMimetype(host.typesMap, p)
    ensures r.Ok? ==> var st := Stat(fs, p).value;
      && r.value.owner == st.owner && r.value.group == GroupName(host.platform, st)
      && r.value.filesize == st.size && r.value.fileperm == FilePerms(st.mode) && r.value.mtime == st.mtime
  {
    match Stat(fs, p)
    case Err(e) => Err(e)
    case Ok(st) =>
      Ok(Info(st.owner, GroupName(host.platform, st), st.size, FileHash(host, p),
              FileMimetype(host.typesMap, p), FilePerms(st.mode), st.mtime))
  }

  /** The hash and the MIME type are functions of the path alone: two
      snapshots in which a file has different contents, size or mode give
      it the same hash and type. */
  lemma FingerprintIgnoresContents(host: Host, fs1: Snapshot, fs2: Snapshot, p: Path)
    requires FileInfo(host, fs1, p).Ok? && FileInfo(host, fs2, p).Ok?
    ensures FileInfo(host, fs1, p).value.md5 == FileInfo(host, fs2, p).value.md5
    ensures FileInfo(host, fs1, p).value.mimetype == FileInfo(host, fs2, p).value.mimetype
  {
  }

  /** `os.path.join(a, b)`. */
  function PathJoin(a: Path, b: string): Path
  {
    if |b| > 0 && b[0] == '/' then b
    else if a == "" || a[|a| - 1] == '/' then a + b
    else a + "/" + b
  }

  /** Joining a walk root and a file name (which holds no `/`) gives a path
      whose last component is that name. */
  lemma JoinedTail(root: Path, name: string)
    requires '/' !in name
    ensures Tail(PathJoin(root, name)) == name
  {
    if root == "" {
      Text.RFindAtSeparator([], '/', []);
      assert Text.RFind(name, '/') == -1;
    } else if root[|root| - 1] == '/' {
      var dir := root[..|root| - 1];
      assert root == dir + "/";
      assert root + name == dir + "/" + name;
      TailAfterSlash(dir, name);
    } else {
      TailAfterSlash(root, name);
    }
  }
}
