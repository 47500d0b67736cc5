/** `FSConfig`: the parsed configuration file, its fixed section/option
    accessors, and the extension allow-list table `mimetypes` that
    `_get_mimetypes` builds when the configuration is loaded. */
module Config {
  import opened Wrappers
  import Text

  /** One section of the parsed file: its options in file order. */
  type Section = seq<(string, string)>

  /** The sections of the parsed file, by name. */
  type ConfigFile = map<string, Section>

  /** The exceptions the configuration code can raise. */
  datatype ConfigError =
    | NoSectionError(section: string)
    | NoOptionError(section: string, option: string)
    | IndexError
    | NameError(name: string)

  /** A loaded `FSConfig`: the parser's contents and `self.mimetypes`. */
  datatype FSConfig = FSConfig(parser: ConfigFile, mimetypes: map<string, Option<string>>)

  const FsWatchSection := "fswatch"
  const SearchAppSection := "searchapp"
  const FileTypesSection := "file-types"

  /** The value of `option` in a section, if the section has it. */
  function Lookup(options: Section, option: string): (r: Option<string>)
    ensures r.None? <==> forall i :: 0 <= i < |options| ==> options[i].0 != option
    ensures r.Some? ==> (option, r.value) in options
  {
    if options == [] then None
    else if options[0].0 == option then Some(options[0].1)
    else Lookup(options[1..], option)
  }

  /** `ConfigParser.get(section, option)`, which raises `NoSectionError` for a
      missing section and `NoOptionError` for a missing option. */
  function Get(parser: ConfigFile, section: string, option: string): (r: Result<string, ConfigError>)
    ensures r.Ok? <==> section in parser && Lookup(parser[section], option).Some?
    ensures r.Ok? ==> (option, r.value) in parser[section]
    ensures section !in parser ==> r == Err(NoSectionError(section))
    ensures section in parser && r.Err? ==> r == Err(NoOptionError(section, option))
  {
    if section !in parser then Err(NoSectionError(section))
    else match Lookup(parser[section], option)
      case None => Err(NoOptionError(section, option))
      case Some(v) => Ok(v)
  }

  function DbName(c: FSConfig): Result<string, ConfigError> { Get(c.parser, FsWatchSection, "dbname") }
  function DbUser(c: FSConfig): Result<string, ConfigError> { Get(c.parser, FsWatchSection, "dbuser") }
  function DbPass(c: FSConfig): Result<string, ConfigError> { Get(c.parser, FsWatchSection, "dbpass") }
  function DbPort(c: FSConfig): Result<string, ConfigError> { Get(c.parser, FsWatchSection, "dbport") }
  function DbHost(c: FSConfig): Result<string, ConfigError> { Get(c.parser, FsWatchSection, "dbhost") }
  function AppKey(c: FSConfig): Result<string, ConfigError> { Get(c.parser, SearchAppSection, "app_key") }
  function SearchKey(c: FSConfig): Result<string, ConfigError> { Get(c.parser, SearchAppSection, "search_key") }
  function Schema(c: FSConfig): Result<string, ConfigError> { Get(c.parser, SearchAppSection, "schema") }
  function BaseUrl(c: FSConfig): Result<string, ConfigError> { Get(c.parser, SearchAppSection, "base_url") }

  /** `watch_dir()`: the configured value when there is one. Otherwise the
      `except ConfigParser.NoOptionError` clause is evaluated, and since the
      module imports `configparser` and not `ConfigParser`, that raises a
      `NameError`: the intended `return None` is never reached. */
  function WatchDir(c: FSConfig): (r: Result<string, ConfigError>)
    ensures r.Ok? <==> Get(c.parser, FsWatchSection, "watch_dir").Ok?
    ensures r.Ok? ==> ("watch_dir", r.value) in c.parser[FsWatchSection]
    ensures r.Err? ==> r.error == NameError("ConfigParser")
  {
    match Get(c.parser, FsWatchSection, "watch_dir")
    case Ok(v) => Ok(v)
    case Err(_) => Err(NameError("ConfigParser"))
  }

  /** The store and watch-directory accessors read only the `fswatch` section,
      the sink accessors only the `searchapp` section. */
  lemma AccessorsReadFixedSections(a: FSConfig, b: FSConfig)
    ensures (FsWatchSection in a.parser <==> FsWatchSection in b.parser) &&
            (FsWatchSection in a.parser ==> a.parser[FsWatchSection] == b.parser[FsWatchSection]) ==>
      && DbName(a) == DbName(b) && DbUser(a) == DbUser(b) && DbPass(a) == DbPass(b)
      && DbPort(a) == DbPort(b) && DbHost(a) == DbHost(b) && WatchDir(a) == WatchDir(b)
    ensures (SearchAppSection in a.parser <==> SearchAppSection in b.parser) &&
            (SearchAppSection in a.parser ==> a.parser[SearchAppSection] == b.parser[SearchAppSection]) ==>
      && AppKey(a) == AppKey(b) && SearchKey(a) == SearchKey(b)
      && Schema(a) == Schema(b) && BaseUrl(a) == BaseUrl(b)
  {
  }

  /** `self.config.items("file-types")[0][1].split(',')`: the items of the
      first option of the `file-types` section. A missing section raises
      `NoSectionError`, an empty one `IndexError`. */
  function FileTypeItems(parser: ConfigFile): (r: Result<seq<string>, ConfigError>)
    ensures r.Ok? <==> FileTypesSection in parser && |parser[FileTypesSection]| > 0
    ensures r.Ok? ==> Text.JoinWith(r.value, ',') == parser[FileTypesSection][0].1
    ensures r.Ok? ==> forall i :: 0 <= i < |r.value| ==> ',' !in r.value[i]
  {
    if FileTypesSection !in parser then Err(NoSectionError(FileTypesSection))
    else if |parser[FileTypesSection]| == 0 then Err(IndexError)
    else
      Text.JoinSplit(parser[FileTypesSection][0].1, ',');
      Ok(Text.Split(parser[FileTypesSection][0].1, ','))
  }

  /** What `_get_mimetypes` stores for one extension: `types_map['.' + ext]`,
      or `None` when that lookup raises `KeyError`. */
  function MimeFor(typesMap: map<string, string>, ext: string): Option<string>
  {
    if "." + ext in typesMap then Some(typesMap["." + ext]) else None
  }

  /** `m` is the table `_get_mimetypes` builds from `items`: one key per
      distinct item, each mapped as `MimeFor` says. */
  ghost predicate IsMimetypeTable(m: map<string, Option<string>>, items: seq<string>, typesMap: map<string, string>)
  {
    && m.Keys == (set e | e in items)
    && forall e :: e in m ==> m[e] == MimeFor(typesMap, e)
  }

  /** `_get_mimetypes`: fills `ftypes` one extension at a time. */
  method GetMimetypes(parser: ConfigFile, typesMap: map<string, string>)
    returns (r: Result<map<string, Option<string>>, ConfigError>)
    ensures r.Err? <==> FileTypeItems(parser).Err?
    ensures r.Err? ==> r.error == FileTypeItems(parser).error
    ensures r.Ok? ==> IsMimetypeTable(r.value, FileTypeItems(parser).value, typesMap)
    ensures r.Ok? ==> |r.value| <= |FileTypeItems(parser).value|
  {
    var items := FileTypeItems(parser);
    if items.Err? {
      return Err(items.error);
    }
    var exts := items.value;
    var ftypes: map<string, Option<string>> := map[];
    for i := 0 to |exts|
      invariant ftypes.Keys == (set e | e in exts[..i])
      invariant forall e :: e in ftypes ==> ftypes[e] == MimeFor(typesMap, e)
      invariant |ftypes| <= i
    {
      var ext := exts[i];
      if "." + ext in typesMap {
        ftypes := ftypes[ext := Some(typesMap["." + ext])];
      } else {
        ftypes := ftypes[ext := None];
      }
      assert exts[..i + 1] == exts[..i] + [ext];
    }
    assert exts[..|exts|] == exts;
    r := Ok(ftypes);
  }

  /** `FSConfig.__init__` once the file is parsed: keep the parser and build
      `self.mimetypes`; an error from `_get_mimetypes` escapes the constructor. */
  method Load(parser: ConfigFile, typesMap: map<string, string>) returns (r: Result<FSConfig, ConfigError>)
    ensures r.Err? <==> FileTypeItems(parser).Err?
    ensures r.Err? ==> r.error == FileTypeItems(parser).error
    ensures r.Ok? ==> r.value.parser == parser
    ensures r.Ok? ==> IsMimetypeTable(r.value.mimetypes, FileTypeItems(parser).value, typesMap)
  {
    var m := GetMimetypes(parser, typesMap);
    match m
    case Err(e) => r := Err(e);
    case Ok(table) => r := Ok(FSConfig(parser, table));
  }

  /** An extension left without a MIME type stays in the table and maps to
      `None`, so `None` is one of the table's values. */
  lemma UnmappedExtensionAddsNone(m: map<string, Option<string>>, items: seq<string>,
                                  typesMap: map<string, string>, ext: string)
    requires IsMimetypeTable(m, items, typesMap)
    requires ext in items && "." + ext !in typesMap
    ensures None in m.Values
  {
    assert ext in m;
  }

  /** A known extension maps to the entry of `types_map` for the same
      extension with a dot in front. */
  lemma KnownExtensionMapsDotted(m: map<string, Option<string>>, items: seq<string>,
                                 typesMap: map<string, string>, ext: string)
    requires IsMimetypeTable(m, items, typesMap)
    requires ext in items && "." + ext in typesMap
    ensures ext in m && m[ext] == Some(typesMap["." + ext])
  {
  }

  /** A list names at most as many distinct extensions as it has items. */
  lemma {:induction false} DistinctAtMostLength(items: seq<string>)
    ensures |(set e | e in items)| <= |items|
  {
    if items != [] {
      DistinctAtMostLength(items[1..]);
      assert (set e | e in items) == {items[0]} + (set e | e in items[1..]);
    }
  }

  /** An extension listed twice gives a single key, so the table is smaller
      than the list. */
  lemma RepeatedExtensionSingleKey(m: map<string, Option<string>>, items: seq<string>,
                                   typesMap: map<string, string>, i: nat, j: nat)
    requires IsMimetypeTable(m, items, typesMap)
    requires i < j < |items| && items[i] == items[j]
    ensures |m| < |items|
  {
    var rest := items[..j] + items[j + 1..];
    assert items == items[..j] + [items[j]] + items[j + 1..];
    assert items[i] == rest[i];
    assert (set e | e in items) == (set e | e in rest);
    DistinctAtMostLength(rest);
    assert |m| == |m.Keys|;
  }
}
