/** config.go: building a `Config` from the decoded configuration file. */
module Conf {
  import opened Common
  import opened Host
  import opened Utils

  /** The typed settings (the two zerolog loggers are left out). */
  datatype Config = Config(
    address: string,
    mode: string,
    statics: map<string, string>,
    staticFs: map<string, string>,
    errors: map<int, string>,
    templates: string,
    logfile: string,
    errorlog: string,
    certFile: string,
    keyFile: string,
    other: Node)

  datatype ConfigError =
    | FsFailed(fs: FsError)
    | YamlInvalid
    | ExtractFailed(extract: ExtractError)
    | WrongTypeStatics
    | WrongTypeStaticsMapping
    | WrongTypeStaticFile
    | WrongTypeStaticFileMapping

  /** How a step of parsing ends: a value, a returned error, or a panic
      (a failed `x.(string)` type assertion). */
  datatype Parse<+T> = Parsed(value: T) | Failed(error: ConfigError) | Panicked

  /** The values gin.SetMode accepts ("" standing for debug); it panics on
      any other value. The mode is a process-wide gin setting, not a field
      of Config. */
  predicate KnownMode(mode: string)
  {
    mode == "" || mode == "debug" || mode == "release" || mode == "test"
  }

  /** `initConfig`: every map empty, every string empty, `other` nil. */
  function InitConfig(): (c: Config)
    ensures c.statics == map[] && c.staticFs == map[] && c.errors == map[]
    ensures c.address == "" && c.mode == "" && c.templates == ""
    ensures c.logfile == "" && c.errorlog == "" && c.certFile == "" && c.keyFile == ""
    ensures c.other == Null
  {
    Config("", "", map[], map[], map[], "", "", "", "", "", Null)
  }

  /** The TLS pairing rule: a certificate without a key, or a key without a
      certificate, is dropped, so either both are set or neither is. */
  function PairTls(cert: string, key: string): (pair: (string, string))
    ensures (pair.0 == "") == (pair.1 == "")
    ensures cert != "" && key != "" ==> pair == (cert, key)
    ensures cert == "" || key == "" ==> pair == ("", "")
  {
    if cert == "" || key == "" then ("", "") else (cert, key)
  }

  // ---- the element rule of the "static" and "staticfile" lists ----

  /** A list element `{map: M, <target>: P}` with both values strings. */
  predicate IsEntry(n: Node, target: string)
  {
    n.Map? && "map" in n.entries && n.entries["map"].Str?
    && target in n.entries && n.entries[target].Str?
  }

  function EntryKey(n: Node, target: string): string
    requires IsEntry(n, target)
  {
    n.entries["map"].s
  }

  function EntryTarget(n: Node, target: string): string
    requires IsEntry(n, target)
  {
    n.entries[target].s
  }

  /** Reference definition of the loop that turns a static list into a
      map: elements in order, a later "map" key overwriting an earlier one;
      a non-map element returns `wrong`, a map without string "map" and
      target values panics. */
  function MappingTable(items: seq<Node>, target: string, wrong: ConfigError): Parse<map<string, string>>
    decreases |items|
  {
    if |items| == 0 then Parsed(map[])
    else
      match MappingTable(items[..|items| - 1], target, wrong)
      case Parsed(t) =>
        var s := items[|items| - 1];
        if !s.Map? then Failed(wrong)
        else if !IsEntry(s, target) then Panicked
        else Parsed(t[EntryKey(s, target) := EntryTarget(s, target)])
      case Failed(e) => Failed(e)
      case Panicked => Panicked
  }

  lemma {:induction false} MappingTablePrefixFailure(items: seq<Node>, target: string, wrong: ConfigError, j: nat)
    requires j <= |items| && !MappingTable(items[..j], target, wrong).Parsed?
    ensures MappingTable(items, target, wrong) == MappingTable(items[..j], target, wrong)
    decreases |items| - j
  {
    if j < |items| {
      assert items[..j + 1][..j] == items[..j];
      MappingTablePrefixFailure(items, target, wrong, j + 1);
    } else {
      assert items[..j] == items;
    }
  }

  /** The list converts exactly when every element is an entry. */
  lemma {:induction false} MappingTableParsedIff(items: seq<Node>, target: string, wrong: ConfigError)
    ensures MappingTable(items, target, wrong).Parsed? <==> forall i :: 0 <= i < |items| ==> IsEntry(items[i], target)
    decreases |items|
  {
    if |items| > 0 {
      var init := items[..|items| - 1];
      MappingTableParsedIff(init, target, wrong);
      assert forall i :: 0 <= i < |init| ==> init[i] == items[i];
    }
  }

  /** The first element that is not an entry decides the failure: a
      non-map element is the "wrong type ... mapping" error, a map with a
      missing or non-string value panics. */
  lemma MappingTableFirstBad(items: seq<Node>, target: string, wrong: ConfigError, i: nat)
    requires i < |items| && !IsEntry(items[i], target)
    requires forall j :: 0 <= j < i ==> IsEntry(items[j], target)
    ensures MappingTable(items, target, wrong) == if items[i].Map? then Panicked else Failed(wrong)
  {
    var init := items[..i];
    MappingTableParsedIff(init, target, wrong);
    assert forall j :: 0 <= j < |init| ==> init[j] == items[j];
    assert items[..i + 1][..i] == init;
    MappingTablePrefixFailure(items, target, wrong, i + 1);
  }

  /** Every key of the resulting map is the "map" value of some element. */
  lemma {:induction false} MappingTableKeys(items: seq<Node>, target: string, wrong: ConfigError)
    requires MappingTable(items, target, wrong).Parsed?
    ensures forall k :: k in MappingTable(items, target, wrong).value <==>
              exists i :: 0 <= i < |items| && IsEntry(items[i], target) && EntryKey(items[i], target) == k
    decreases |items|
  {
    if |items| > 0 {
      var init := items[..|items| - 1];
      MappingTableKeys(init, target, wrong);
      assert forall i :: 0 <= i < |init| ==> init[i] == items[i];
      var t := MappingTable(items, target, wrong).value;
      forall k | k in t
        ensures exists i :: 0 <= i < |items| && IsEntry(items[i], target) && EntryKey(items[i], target) == k
      {
        if k != EntryKey(items[|items| - 1], target) {
          var i :| 0 <= i < |init| && IsEntry(init[i], target) && EntryKey(init[i], target) == k;
          assert items[i] == init[i];
        }
      }
    }
  }

  /** A later duplicate wins: each key maps to the target of the last
      element carrying it. */
  lemma {:induction false} MappingTableLastWins(items: seq<Node>, target: string, wrong: ConfigError, i: nat)
    requires MappingTable(items, target, wrong).Parsed?
    requires i < |items| && IsEntry(items[i], target)
    requires forall j :: i < j < |items| && IsEntry(items[j], target) ==> EntryKey(items[j], target) != EntryKey(items[i], target)
    ensures EntryKey(items[i], target) in MappingTable(items, target, wrong).value
    ensures MappingTable(items, target, wrong).value[EntryKey(items[i], target)] == EntryTarget(items[i], target)
    decreases |items|
  {
    if i < |items| - 1 {
      var init := items[..|items| - 1];
      assert init[i] == items[i];
      assert forall j :: i < j < |init| ==> init[j] == items[j];
      MappingTableLastWins(init, target, wrong, i);
    }
  }

  /** The `for _, s := range ss` loop of the "static"/"staticfile" blocks. */
  method ConvertMappings(items: seq<Node>, target: string, wrong: ConfigError) returns (r: Parse<map<string, string>>)
    ensures r == MappingTable(items, target, wrong)
  {
    var table: map<string, string> := map[];
    for i := 0 to |items|
      invariant MappingTable(items[..i], target, wrong) == Parsed(table)
    {
      assert items[..i + 1][..i] == items[..i];
      var s := items[i];
      if !s.Map? {
        MappingTablePrefixFailure(items, target, wrong, i + 1);
        return Failed(wrong);
      }
      var mapping := s.entries;
      if "map" !in mapping || !mapping["map"].Str? || target !in mapping || !mapping[target].Str? {
        MappingTablePrefixFailure(items, target, wrong, i + 1);
        return Panicked;
      }
      table := table[mapping["map"].s := mapping[target].s];
    }
    assert items[..|items|] == items;
    return Parsed(table);
  }

  // ---- the reading of each setting below the "gin" key ----

  /** A setting read with `mm.(string)`: absent, or present and a string
      (any other value panics). */
  ghost predicate StringOrAbsent(g: Node, path: seq<string>)
  {
    Lookup(g, path).Success? ==> Lookup(g, path).value.Str?
  }

  /** The value a `mm.(string)` setting leaves in its field. */
  ghost function StringSetting(g: Node, path: seq<string>): string
  {
    match Lookup(g, path)
    case Success(Str(s)) => s
    case _ => ""
  }

  /** A setting read with `ss, ok := mm.(string); if ok && ss != ""`: the
      non-empty string, if there is one. */
  ghost function NonEmptyString(g: Node, path: seq<string>): Option<string>
  {
    match Lookup(g, path)
    case Success(Str(s)) => if s != "" then Some(s) else None
    case _ => None
  }

  /** A "static"/"staticfile" setting: absent, or a list every element of
      which is an entry. */
  ghost predicate ListOrAbsent(g: Node, key: string, target: string)
  {
    Lookup(g, [key]).Success? ==>
      Lookup(g, [key]).value.List?
      && forall i :: 0 <= i < |Lookup(g, [key]).value.items| ==> IsEntry(Lookup(g, [key]).value.items[i], target)
  }

  /** The table such a setting yields (empty when absent). */
  ghost function MappingSetting(g: Node, key: string, target: string, wrong: ConfigError): map<string, string>
  {
    match Lookup(g, [key])
    case Success(List(items)) =>
      (match MappingTable(items, target, wrong) case Parsed(t) => t case _ => map[])
    case _ => map[]
  }

  /** The value of the "other" setting (nil when absent). */
  ghost function OtherSetting(g: Node): Node
  {
    if Lookup(g, ["other"]).Success? then Lookup(g, ["other"]).value else Null
  }

  /** The mode handed to gin.SetMode, if the "mode" key is present. */
  ghost function ModeSetting(g: Node): Option<string>
  {
    if Lookup(g, ["mode"]).Success? then Some(StringSetting(g, ["mode"])) else None
  }

  /** The plain settings are absent or strings, and a mode is one gin
      knows. */
  ghost predicate ScalarsOk(g: Node)
  {
    StringOrAbsent(g, ["address"]) && StringOrAbsent(g, ["log"])
    && StringOrAbsent(g, ["errorlog"]) && StringOrAbsent(g, ["mode"])
    && (Lookup(g, ["mode"]).Success? ==> KnownMode(StringSetting(g, ["mode"])))
  }

  /** `c` after the address, other, log and errorlog settings: a present
      key overrides the field, an absent one leaves it as it was. */
  ghost function WithScalars(g: Node, c: Config): Config
  {
    c.(address := if Lookup(g, ["address"]).Success? then StringSetting(g, ["address"]) else c.address,
       other := if Lookup(g, ["other"]).Success? then OtherSetting(g) else c.other,
       logfile := if Lookup(g, ["log"]).Success? then StringSetting(g, ["log"]) else c.logfile,
       errorlog := if Lookup(g, ["errorlog"]).Success? then StringSetting(g, ["errorlog"]) else c.errorlog)
  }

  /** Every non-empty TLS path is a regular file and a non-empty templates
      path is a directory. */
  ghost predicate PathsOk(g: Node, disk: Disk)
  {
    && (NonEmptyString(g, ["tls", "certfile"]).Some? ==> IsFile(disk, NonEmptyString(g, ["tls", "certfile"]).value).None?)
    && (NonEmptyString(g, ["tls", "keyfile"]).Some? ==> IsFile(disk, NonEmptyString(g, ["tls", "keyfile"]).value).None?)
    && (NonEmptyString(g, ["templates"]).Some? ==> IsDir(disk, NonEmptyString(g, ["templates"]).value).None?)
  }

  /** The error a path setting returns: the stat check's error for a
      non-empty string that fails it. */
  ghost function PathError(g: Node, path: seq<string>, disk: Disk, dir: bool): Option<ConfigError>
  {
    var s := NonEmptyString(g, path);
    if s.Some? && PathCheck(disk, s.value, dir).Some? then Some(FsFailed(PathCheck(disk, s.value, dir).value)) else None
  }

  /** The error of the first failing path setting, in the order read:
      certificate, key, templates. */
  ghost function PathsError(g: Node, disk: Disk): Option<ConfigError>
  {
    if PathError(g, ["tls", "certfile"], disk, false).Some? then PathError(g, ["tls", "certfile"], disk, false)
    else if PathError(g, ["tls", "keyfile"], disk, false).Some? then PathError(g, ["tls", "keyfile"], disk, false)
    else PathError(g, ["templates"], disk, true)
  }

  /** `c` after the TLS and templates settings, with the pairing rule
      applied to the certificate and key. */
  ghost function WithPaths(g: Node, c: Config): Config
  {
    var cert := NonEmptyString(g, ["tls", "certfile"]);
    var key := NonEmptyString(g, ["tls", "keyfile"]);
    var tls := PairTls(if cert.Some? then cert.value else c.certFile, if key.Some? then key.value else c.keyFile);
    var templates := NonEmptyString(g, ["templates"]);
    c.(certFile := tls.0, keyFile := tls.1,
       templates := if templates.Some? then templates.value else c.templates)
  }

  /** The static lists are absent or lists of entries, and the error pages
      are absent or strings. */
  ghost predicate TablesOk(g: Node)
  {
    ListOrAbsent(g, "static", "path") && ListOrAbsent(g, "staticfile", "file")
    && StringOrAbsent(g, ["error", "404"]) && StringOrAbsent(g, ["error", "500"])
  }

  /** The error map after the two error-page settings: only 404 and 500 can
      be written. */
  ghost function ErrorPages(g: Node, errors: map<int, string>): map<int, string>
  {
    var e := if Lookup(g, ["error", "404"]).Success? then errors[404 := StringSetting(g, ["error", "404"])] else errors;
    if Lookup(g, ["error", "500"]).Success? then e[500 := StringSetting(g, ["error", "500"])] else e
  }

  /** `c` after the static lists and the error pages. */
  ghost function WithTables(g: Node, c: Config): Config
  {
    c.(statics := if Lookup(g, ["static"]).Success? then MappingSetting(g, "static", "path", WrongTypeStaticsMapping) else c.statics,
       staticFs := if Lookup(g, ["staticfile"]).Success? then MappingSetting(g, "staticfile", "file", WrongTypeStaticFileMapping) else c.staticFs,
       errors := ErrorPages(g, c.errors))
  }

  /** Everything below "gin" that `parseFile` demands. */
  ghost predicate WellFormed(g: Node, disk: Disk)
  {
    ScalarsOk(g) && PathsOk(g, disk) && TablesOk(g)
  }

  /** The configuration `parseFile` builds from the "gin" subtree, starting
      from initConfig's defaults. */
  ghost function ConfigOf(g: Node, disk: Disk): Config
  {
    WithTables(g, WithPaths(g, WithScalars(g, InitConfig())))
  }

  /** How a "static"/"staticfile" setting ends: absent is nothing, a value
      that is not a list is `wrongList`, a list ends as its conversion. */
  ghost function MappingsOutcome(g: Node, key: string, target: string, wrongList: ConfigError, wrongMapping: ConfigError)
    : Parse<Option<map<string, string>>>
  {
    match Lookup(g, [key])
    case Failure(_) => Parsed(None)
    case Success(v) =>
      if !v.List? then Failed(wrongList)
      else
        match MappingTable(v.items, target, wrongMapping)
        case Parsed(t) => Parsed(Some(t))
        case Failed(e) => Failed(e)
        case Panicked => Panicked
  }

  /** How the table settings end, in the order read: "static",
      "staticfile", then the two error pages (a non-string one panics). */
  ghost function TablesOutcome(g: Node, c: Config): Parse<Config>
  {
    match MappingsOutcome(g, "static", "path", WrongTypeStatics, WrongTypeStaticsMapping)
    case Failed(e) => Failed(e)
    case Panicked => Panicked
    case Parsed(_) =>
      match MappingsOutcome(g, "staticfile", "file", WrongTypeStaticFile, WrongTypeStaticFileMapping)
      case Failed(e) => Failed(e)
      case Panicked => Panicked
      case Parsed(_) =>
        if StringOrAbsent(g, ["error", "404"]) && StringOrAbsent(g, ["error", "500"]) then Parsed(WithTables(g, c))
        else Panicked
  }

  /** How `parseFile` ends on a decoded tree: the extract error for a
      missing "gin" key, a panic for a bad plain setting or mode, the first
      failing path check's error, then the outcome of the tables. */
  ghost function TreeOutcome(tree: Node, disk: Disk): Parse<Config>
  {
    match Lookup(tree, ["gin"])
    case Failure(e) => Failed(ExtractFailed(e))
    case Success(g) =>
      if !ScalarsOk(g) then Panicked
      else if PathsError(g, disk).Some? then Failed(PathsError(g, disk).value)
      else TablesOutcome(g, WithPaths(g, WithScalars(g, InitConfig())))
  }

  /** The mode gin.SetMode was given: the "mode" setting, once every plain
      setting before it was read without a panic. It stays applied whatever
      the later settings do. */
  ghost function ModeApplied(tree: Node): Option<string>
  {
    match Lookup(tree, ["gin"])
    case Failure(_) => None
    case Success(g) => if ScalarsOk(g) then ModeSetting(g) else None
  }

  /** `mm, err := extract(m, path...); if err == nil { ... = mm.(string) }`:
      nothing when the key is absent, the string when it is one, a panic
      for any other value. */
  method ReadString(m: Node, path: seq<string>) returns (r: Parse<Option<string>>)
    ensures !r.Failed?
    ensures r.Panicked? <==> !StringOrAbsent(m, path)
    ensures r.Parsed? ==> r.value == if Lookup(m, path).Success? then Some(StringSetting(m, path)) else None
  {
    var mm := Extract(m, path);
    if mm.Failure? {
      return Parsed(None);
    }
    if !mm.value.Str? {
      return Panicked;
    }
    return Parsed(Some(mm.value.s));
  }

  /** `mm, err := extract(m, path...); if err == nil { ss, ok := mm.(string);
      if ok && ss != "" { check ss } }`: a path setting that is ignored
      unless it is a non-empty string, and then must pass the stat check
      (`isFile`, or `isDir` when `dir` holds). */
  method ReadPath(m: Node, path: seq<string>, disk: Disk, dir: bool) returns (r: Parse<string>)
    ensures !r.Panicked?
    ensures r.Failed? <==> NonEmptyString(m, path).Some? && PathCheck(disk, NonEmptyString(m, path).value, dir).Some?
    ensures r.Failed? ==> r.error == FsFailed(PathCheck(disk, NonEmptyString(m, path).value, dir).value)
    ensures r.Parsed? ==> r.value == if NonEmptyString(m, path).Some? then NonEmptyString(m, path).value else ""
  {
    var mm := Extract(m, path);
    if mm.Success? && mm.value.Str? && mm.value.s != "" {
      var err := if dir then IsDir(disk, mm.value.s) else IsFile(disk, mm.value.s);
      if err.Some? {
        return Failed(FsFailed(err.value));
      }
      return Parsed(mm.value.s);
    }
    return Parsed("");
  }

  function PathCheck(disk: Disk, path: string, dir: bool): Option<FsError>
  {
    if dir then IsDir(disk, path) else IsFile(disk, path)
  }

  /** The "static"/"staticfile" block: absent leaves the default; a value
      that is not a list is `wrongList`; a list is converted element by
      element, and its conversion's error or panic is the block's. */
  method ReadMappings(m: Node, key: string, target: string, wrongList: ConfigError, wrongMapping: ConfigError)
    returns (r: Parse<Option<map<string, string>>>)
    ensures r == MappingsOutcome(m, key, target, wrongList, wrongMapping)
    ensures r.Parsed? <==> ListOrAbsent(m, key, target)
    ensures r.Parsed? ==> r.value == if Lookup(m, [key]).Success? then Some(MappingSetting(m, key, target, wrongMapping)) else None
    ensures Lookup(m, [key]).Success? && !Lookup(m, [key]).value.List? ==> r == Failed(wrongList)
  {
    var mm := Extract(m, [key]);
    if mm.Failure? {
      return Parsed(None);
    }
    if !mm.value.List? {
      return Failed(wrongList);
    }
    var table := ConvertMappings(mm.value.items, target, wrongMapping);
    MappingTableParsedIff(mm.value.items, target, wrongMapping);
    if table.Failed? {
      return Failed(table.error);
    }
    if table.Panicked? {
      return Panicked;
    }
    return Parsed(Some(table.value));
  }

  /** address, other, log, errorlog and mode: a non-string value, or a mode
      gin.SetMode rejects, panics; the mode is returned beside `c`. */
  method ReadScalars(m: Node, c: Config) returns (r: Parse<(Config, Option<string>)>)
    ensures !r.Failed?
    ensures r.Parsed? <==> ScalarsOk(m)
    ensures r.Parsed? ==> r.value == (WithScalars(m, c), ModeSetting(m))
  {
    var cfg := c;
    var address := ReadString(m, ["address"]);
    if address.Panicked? { return Panicked; }
    if address.value.Some? { cfg := cfg.(address := address.value.value); }

    var other := Extract(m, ["other"]);
    if other.Success? { cfg := cfg.(other := other.value); }

    var logfile := ReadString(m, ["log"]);
    if logfile.Panicked? { return Panicked; }
    if logfile.value.Some? { cfg := cfg.(logfile := logfile.value.value); }

    var errorlog := ReadString(m, ["errorlog"]);
    if errorlog.Panicked? { return Panicked; }
    if errorlog.value.Some? { cfg := cfg.(errorlog := errorlog.value.value); }

    var mode := ReadString(m, ["mode"]);
    if mode.Panicked? { return Panicked; }
    if mode.value.Some? && !KnownMode(mode.value.value) { return Panicked; }
    return Parsed((cfg, mode.value));
  }

  /** The certificate, key and templates settings: the first failing stat
      check's error, or `c` with the paths set and paired. */
  method ReadPaths(m: Node, disk: Disk, c: Config) returns (r: Parse<Config>)
    ensures r == if PathsError(m, disk).Some? then Failed(PathsError(m, disk).value) else Parsed(WithPaths(m, c))
    ensures r.Parsed? <==> PathsOk(m, disk)
  {
    var cfg := c;
    var cert := ReadPath(m, ["tls", "certfile"], disk, false);
    if cert.Failed? { return Failed(cert.error); }
    if cert.value != "" { cfg := cfg.(certFile := cert.value); }

    var key := ReadPath(m, ["tls", "keyfile"], disk, false);
    if key.Failed? { return Failed(key.error); }
    if key.value != "" { cfg := cfg.(keyFile := key.value); }

    var tls := PairTls(cfg.certFile, cfg.keyFile);
    cfg := cfg.(certFile := tls.0, keyFile := tls.1);

    var templates := ReadPath(m, ["templates"], disk, true);
    if templates.Failed? { return Failed(templates.error); }
    if templates.value != "" { cfg := cfg.(templates := templates.value); }
    return Parsed(cfg);
  }

  /** The static lists and the error pages. */
  method ReadTables(m: Node, c: Config) returns (r: Parse<Config>)
    ensures r == TablesOutcome(m, c)
    ensures r.Parsed? <==> TablesOk(m)
    ensures r.Parsed? ==> r.value == WithTables(m, c)
  {
    var cfg := c;
    var statics := ReadMappings(m, "static", "path", WrongTypeStatics, WrongTypeStaticsMapping);
    if statics.Failed? { return Failed(statics.error); }
    if statics.Panicked? { return Panicked; }
    if statics.value.Some? { cfg := cfg.(statics := statics.value.value); }

    var staticFs := ReadMappings(m, "staticfile", "file", WrongTypeStaticFile, WrongTypeStaticFileMapping);
    if staticFs.Failed? { return Failed(staticFs.error); }
    if staticFs.Panicked? { return Panicked; }
    if staticFs.value.Some? { cfg := cfg.(staticFs := staticFs.value.value); }

    var e404 := ReadString(m, ["error", "404"]);
    if e404.Panicked? { return Panicked; }
    if e404.value.Some? { cfg := cfg.(errors := cfg.errors[404 := e404.value.value]); }

    var e500 := ReadString(m, ["error", "500"]);
    if e500.Panicked? { return Panicked; }
    if e500.value.Some? { cfg := cfg.(errors := cfg.errors[500 := e500.value.value]); }
    return Parsed(cfg);
  }

  /** The part of `parseFile` after the YAML is decoded: the fields of
      initConfig's result set one group after another, each from an
      `extract` below the "gin" key. `ginMode` is the mode handed to
      gin.SetMode, which stays set even when a later setting fails. */
  method ParseTree(tree: Node, disk: Disk) returns (r: Parse<Config>, ginMode: Option<string>)
    ensures r == TreeOutcome(tree, disk)
    ensures ginMode == ModeApplied(tree)
    ensures Lookup(tree, ["gin"]).Failure? ==> r == Failed(ExtractFailed(Lookup(tree, ["gin"]).error))
    ensures r.Parsed? <==> Lookup(tree, ["gin"]).Success? && WellFormed(Lookup(tree, ["gin"]).value, disk)
    ensures r.Parsed? ==> r.value == ConfigOf(Lookup(tree, ["gin"]).value, disk)
  {
    ginMode := None;
    var c := InitConfig();
    var gin := Extract(tree, ["gin"]);
    if gin.Failure? {
      return Failed(ExtractFailed(gin.error)), ginMode;
    }
    var m := gin.value;
    var scalars := ReadScalars(m, c);
    if scalars.Panicked? { return Panicked, ginMode; }
    c := scalars.value.0;
    ginMode := scalars.value.1;
    var paths := ReadPaths(m, disk, c);
    if paths.Failed? { return Failed(paths.error), ginMode; }
    c := paths.value;
    r := ReadTables(m, c);
  }

  /** `parseFile`: the configuration file must be a regular file whose
      contents decode as YAML (`decode` stands for yaml.Unmarshal); the
      decoded tree then ends as `TreeOutcome` says. */
  method ParseFile(path: string, disk: Disk, decode: string -> Option<Node>) returns (r: Parse<Config>, ginMode: Option<string>)
    ensures IsFile(disk, path).Some? ==> r == Failed(FsFailed(IsFile(disk, path).value))
    ensures IsFile(disk, path).None? && path in disk.unreadable ==> r == Failed(FsFailed(PermissionDenied(path)))
    ensures IsFile(disk, path).None? && path !in disk.unreadable && decode(disk.files[path]).None? ==> r == Failed(YamlInvalid)
    ensures IsFile(disk, path).None? && path !in disk.unreadable && decode(disk.files[path]).Some? ==>
              r == TreeOutcome(decode(disk.files[path]).value, disk) && ginMode == ModeApplied(decode(disk.files[path]).value)
    ensures ginMode.Some? ==> path in disk.files && path !in disk.unreadable && decode(disk.files[path]).Some?
    ensures r.Parsed? <==>
              && path in disk.files && path !in disk.unreadable
              && decode(disk.files[path]).Some?
              && Lookup(decode(disk.files[path]).value, ["gin"]).Success?
              && WellFormed(Lookup(decode(disk.files[path]).value, ["gin"]).value, disk)
    ensures r.Parsed? ==>
              r.value == ConfigOf(Lookup(decode(disk.files[path]).value, ["gin"]).value, disk)
  {
    ginMode := None;
    var err := IsFile(disk, path);
    if err.Some? {
      return Failed(FsFailed(err.value)), ginMode;
    }
    var buf := ReadFile(disk, path);
    if buf.Failure? {
      return Failed(FsFailed(buf.error)), ginMode;
    }
    var out := decode(buf.value);
    if out.None? {
      return Failed(YamlInvalid), ginMode;
    }
    r, ginMode := ParseTree(out.value, disk);
  }

  /** A "static" setting that is not a list is the "wrong type statics"
      error, once the settings read before it were accepted. */
  lemma StaticNotListFails(tree: Node, disk: Disk)
    requires Lookup(tree, ["gin"]).Success?
    requires var g := Lookup(tree, ["gin"]).value;
             ScalarsOk(g) && PathsOk(g, disk) && Lookup(g, ["static"]).Success? && !Lookup(g, ["static"]).value.List?
    ensures TreeOutcome(tree, disk) == Failed(WrongTypeStatics)
  {
  }

  /** In a "static" list whose earlier elements are entries, the first
      element that is not one decides: a non-map element is the "wrong type
      statics mapping" error, a map without string "map" and "path" values
      panics. */
  lemma StaticBadElement(tree: Node, disk: Disk, i: nat)
    requires Lookup(tree, ["gin"]).Success?
    requires var g := Lookup(tree, ["gin"]).value;
             ScalarsOk(g) && PathsOk(g, disk) && Lookup(g, ["static"]).Success? && Lookup(g, ["static"]).value.List?
    requires var items := Lookup(Lookup(tree, ["gin"]).value, ["static"]).value.items;
             i < |items| && !IsEntry(items[i], "path") && forall j :: 0 <= j < i ==> IsEntry(items[j], "path")
    ensures var items := Lookup(Lookup(tree, ["gin"]).value, ["static"]).value.items;
            TreeOutcome(tree, disk) == if items[i].Map? then Panicked else Failed(WrongTypeStaticsMapping)
  {
    var items := Lookup(Lookup(tree, ["gin"]).value, ["static"]).value.items;
    MappingTableFirstBad(items, "path", WrongTypeStaticsMapping, i);
  }

  /** A mode gin does not know panics in gin.SetMode: parsing ends in a
      panic and no mode is applied. */
  lemma UnknownModePanics(tree: Node, disk: Disk, mode: string)
    requires Lookup(tree, ["gin"]).Success?
    requires var g := Lookup(tree, ["gin"]).value;
             Lookup(g, ["mode"]) == Success(Str(mode)) && !KnownMode(mode)
    ensures TreeOutcome(tree, disk) == Panicked
    ensures ModeApplied(tree) == None
  {
  }

  /** A known mode is applied even when a later setting makes parsing
      fail, here a certificate path that is not a regular file. */
  lemma ModeSurvivesPathFailure(tree: Node, disk: Disk, mode: string, cert: string)
    requires Lookup(tree, ["gin"]).Success?
    requires var g := Lookup(tree, ["gin"]).value;
             ScalarsOk(g) && Lookup(g, ["mode"]) == Success(Str(mode))
             && Lookup(g, ["tls", "certfile"]) == Success(Str(cert)) && cert != "" && cert !in disk.files
    ensures TreeOutcome(tree, disk) == Failed(FsFailed(IsFile(disk, cert).value))
    ensures ModeApplied(tree) == Some(mode)
  {
  }

  /** `Config.Get`: the value at the key path below the "other" setting,
      nil when `extract` fails. */
  function Get(c: Config, keys: seq<string>): (ret: Node)
    ensures Lookup(c.other, keys).Success? ==> ret == Lookup(c.other, keys).value
    ensures Lookup(c.other, keys).Failure? ==> ret == Null
  {
    match Lookup(c.other, keys)
    case Success(v) => v
    case Failure(_) => Null
  }

  /** The "hello: world" setting found under "other". */
  lemma GetHelloWorld(c: Config)
    requires c.other == Map(map["hello" := Str("world")])
    ensures Get(c, ["hello"]) == Str("world")
  {
  }
}
