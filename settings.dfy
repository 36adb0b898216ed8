/**
 * Loading the server settings from a YAML configuration file. Shell
 * expansion (`shellexpand::full`) is an `Expander`; reading and parsing the
 * file at an expanded path is a `Reader` (path to the parsed YAML documents,
 * or a parse error); `Path::exists` is a predicate on the path as written,
 * which does no expansion.
 */
module Settings {
  import opened Wrappers
  import opened Ints

  /**
   * A YAML node as the loader sees it. `Other` stands for every node the
   * settings never read (reals, arrays, nulls, aliases) and for the `BadValue`
   * returned by indexing a missing key.
   */
  datatype Yaml = Integer(i: i64) | Boolean(b: bool) | Str(s: string) | Hash(entries: map<string, Yaml>) | Other

  datatype ConfigError = ScanError(message: string) | NoYamlDocuments | NoValidConfigFile

  datatype DnsSettings = DnsSettings(
    listeningPort: u16,
    remoteLookupPort: u16,
    databaseFile: string,
    threadCount: u32,
    useUdp: bool,
    useTcp: bool)

  type Reader = string -> Result<seq<Yaml>, ConfigError>
  type Expander = string -> string

  const DEFAULT_LISTENING_PORT: u16 := 53
  const DEFAULT_REMOTE_LOOKUP_PORT: u16 := 42069
  const DEFAULT_THREAD_COUNT: u32 := 1
  const DEFAULT_DATABASE_FILE: string := "~/.config/simpledns/simpledns.sqlite.db"

  /** The configuration files tried by `load_default`, in order of precedence. */
  const CONFIG_CANDIDATES: seq<string> :=
    ["./dns.config.yaml", "~/.config/simpledns/dns.config.yaml", "/etc/simpledns/dns.config.yaml"]

  /** `doc[key]`: the value under `key` in a mapping, `BadValue` (here `Other`) otherwise. */
  function Index(doc: Yaml, key: string): Yaml
  {
    if doc.Hash? && key in doc.entries then doc.entries[key] else Other
  }

  function AsI64(v: Yaml): Option<i64>
  {
    if v.Integer? then Some(v.i) else None
  }

  function AsBool(v: Yaml): Option<bool>
  {
    if v.Boolean? then Some(v.b) else None
  }

  function AsStr(v: Yaml): Option<string>
  {
    if v.Str? then Some(v.s) else None
  }

  /** `field` is `default` when no integer was given, else congruent to it modulo `modulus`. */
  predicate CastOrDefault(field: int, given: Option<i64>, default: int, modulus: int)
    requires modulus > 0
  {
    match given
    case None => field == default
    case Some(x) => (field - x) % modulus == 0
  }

  /** `s` holds the values of `doc`, each defaulted and cast as `load_from_file` does. */
  predicate ReadFrom(s: DnsSettings, doc: Yaml, expand: Expander)
  {
    && CastOrDefault(s.listeningPort, AsI64(Index(doc, "listening-port")), DEFAULT_LISTENING_PORT, U16_LIMIT)
    && CastOrDefault(s.remoteLookupPort, AsI64(Index(doc, "remote-lookup-port")), DEFAULT_REMOTE_LOOKUP_PORT, U16_LIMIT)
    && CastOrDefault(s.threadCount, AsI64(Index(doc, "thread-count")), DEFAULT_THREAD_COUNT, U32_LIMIT)
    && (s.useUdp <==> AsBool(Index(doc, "use-udp")) != Some(false))
    && (s.useTcp <==> AsBool(Index(doc, "use-tcp")) == Some(true))
    && (AsStr(Index(doc, "database-file")).Some? ==> s.databaseFile == expand(AsStr(Index(doc, "database-file")).value))
    && (AsStr(Index(doc, "database-file")).None? ==> s.databaseFile == expand(DEFAULT_DATABASE_FILE))
  }

  /**
   * `load_from_file`: the file read is the one at the expanded name; a parse
   * error is passed on, a file with no YAML document is an error, and
   * otherwise the first document alone supplies the settings.
   */
  function LoadFromFile(filename: string, read: Reader, expand: Expander): (r: Result<DnsSettings, ConfigError>)
    ensures read(expand(filename)).Failure? ==> r == Failure(read(expand(filename)).error)
    ensures read(expand(filename)).Success? && read(expand(filename)).value == [] ==> r == Failure(NoYamlDocuments)
    ensures read(expand(filename)).Success? && read(expand(filename)).value != [] ==>
      r.Success? && ReadFrom(r.value, read(expand(filename)).value[0], expand)
  {
    match read(expand(filename))
    case Failure(e) => Failure(e)
    case Success(docs) =>
      if |docs| == 0 then Failure(NoYamlDocuments)
      else
        var doc := docs[0];
        var listeningPort := match AsI64(Index(doc, "listening-port"))
          case Some(x) => AsU16(x)
          case None => DEFAULT_LISTENING_PORT;
        var remoteLookupPort := match AsI64(Index(doc, "remote-lookup-port"))
          case Some(x) => AsU16(x)
          case None => DEFAULT_REMOTE_LOOKUP_PORT;
        var threadCount := match AsI64(Index(doc, "thread-count"))
          case Some(x) => AsU32(x)
          case None => DEFAULT_THREAD_COUNT;
        var useUdp := match AsBool(Index(doc, "use-udp"))
          case Some(x) => x
          case None => true;
        var useTcp := match AsBool(Index(doc, "use-tcp"))
          case Some(x) => x
          case None => false;
        var databaseFile := expand(match AsStr(Index(doc, "database-file"))
          case Some(x) => x
          case None => DEFAULT_DATABASE_FILE);
        Success(DnsSettings(listeningPort, remoteLookupPort, databaseFile, threadCount, useUdp, useTcp))
  }

  /** The settings document that reads back as exactly `s`. */
  function Document(s: DnsSettings): Yaml
  {
    Hash(map[
      "listening-port" := Integer(s.listeningPort),
      "remote-lookup-port" := Integer(s.remoteLookupPort),
      "database-file" := Str(s.databaseFile),
      "thread-count" := Integer(s.threadCount),
      "use-udp" := Boolean(s.useUdp),
      "use-tcp" := Boolean(s.useTcp)])
  }

  /** Writing the settings out and loading them back gives the same settings. */
  lemma LoadDocumentRoundTrip(s: DnsSettings, filename: string, read: Reader, expand: Expander, rest: seq<Yaml>)
    requires read(expand(filename)) == Success([Document(s)] + rest)
    requires expand(s.databaseFile) == s.databaseFile
    ensures LoadFromFile(filename, read, expand) == Success(s)
  {
    var doc := Document(s);
    assert AsI64(Index(doc, "listening-port")) == Some(s.listeningPort as i64);
    assert AsI64(Index(doc, "remote-lookup-port")) == Some(s.remoteLookupPort as i64);
    assert AsI64(Index(doc, "thread-count")) == Some(s.threadCount as i64);
    assert AsBool(Index(doc, "use-udp")) == Some(s.useUdp);
    assert AsBool(Index(doc, "use-tcp")) == Some(s.useTcp);
    assert AsStr(Index(doc, "database-file")) == Some(s.databaseFile);
    CastsKeepFittingValues(s.listeningPort);
    CastsKeepFittingValues(s.remoteLookupPort);
    CastsKeepFittingValues(s.threadCount);
  }

  /**
   * No key holds a value of the type its setting reads: each key is absent,
   * holds a value of another type, or the document is not a mapping at all.
   */
  predicate GivesNoSetting(doc: Yaml)
  {
    && AsI64(Index(doc, "listening-port")).None?
    && AsI64(Index(doc, "remote-lookup-port")).None?
    && AsI64(Index(doc, "thread-count")).None?
    && AsBool(Index(doc, "use-udp")).None?
    && AsBool(Index(doc, "use-tcp")).None?
    && AsStr(Index(doc, "database-file")).None?
  }

  /** A first document that gives no setting yields every default. */
  lemma LoadDefaults(filename: string, read: Reader, expand: Expander, doc: Yaml, rest: seq<Yaml>)
    requires read(expand(filename)) == Success([doc] + rest)
    requires GivesNoSetting(doc)
    ensures LoadFromFile(filename, read, expand)
      == Success(DnsSettings(53, 42069, expand("~/.config/simpledns/simpledns.sqlite.db"), 1, true, false))
  {
  }

  /** Only the first document counts: the ones after it never change the settings. */
  lemma LaterDocumentsIgnored(filename: string, read: Reader, read': Reader, expand: Expander, doc: Yaml, rest: seq<Yaml>, rest': seq<Yaml>)
    requires read(expand(filename)) == Success([doc] + rest)
    requires read'(expand(filename)) == Success([doc] + rest')
    ensures LoadFromFile(filename, read, expand) == LoadFromFile(filename, read', expand)
  {
  }

  /** `paths[k]` is the first of `paths` that exists. */
  predicate FirstExisting(paths: seq<string>, pathExists: string -> bool, k: int)
  {
    && 0 <= k < |paths|
    && pathExists(paths[k])
    && forall j :: 0 <= j < k ==> !pathExists(paths[j])
  }

  /** No earlier candidate is skipped: at most one index is the first existing one. */
  lemma FirstExistingUnique(paths: seq<string>, pathExists: string -> bool, k: int, k': int)
    requires FirstExisting(paths, pathExists, k) && FirstExisting(paths, pathExists, k')
    ensures k == k'
  {
  }

  /**
   * The search loop of `load_default`: the first candidate for which `found`
   * holds, or the empty string when there is none.
   */
  method SelectConfigFile(found: string -> bool) returns (configFile: string)
    ensures configFile == "" <==> forall j :: 0 <= j < |CONFIG_CANDIDATES| ==> !found(CONFIG_CANDIDATES[j])
    ensures configFile != "" ==>
      exists k :: FirstExisting(CONFIG_CANDIDATES, found, k) && configFile == CONFIG_CANDIDATES[k]
  {
    var filenames := CONFIG_CANDIDATES;
    configFile := "";
    for i := 0 to |filenames|
      invariant configFile == ""
      invariant forall j :: 0 <= j < i ==> !found(filenames[j])
    {
      if found(filenames[i]) {
        configFile := filenames[i];
        assert FirstExisting(filenames, found, i);
        break;
      }
    }
  }

  /**
   * `load_default` as written: settles on the first candidate whose literal
   * path exists, then loads it, which reads the file at the expanded path;
   * with no candidate present `load_default` panics, here `NoValidConfigFile`.
   * `configFile` is the chosen candidate, empty when none was found.
   */
  method LoadDefault(pathExists: string -> bool, read: Reader, expand: Expander)
    returns (configFile: string, r: Result<DnsSettings, ConfigError>)
    ensures configFile == "" <==> forall j :: 0 <= j < |CONFIG_CANDIDATES| ==> !pathExists(CONFIG_CANDIDATES[j])
    ensures configFile != "" ==>
      exists k :: FirstExisting(CONFIG_CANDIDATES, pathExists, k) && configFile == CONFIG_CANDIDATES[k]
    ensures configFile == "" ==> r == Failure(NoValidConfigFile)
    ensures configFile != "" ==> r == LoadFromFile(configFile, read, expand)
  {
    configFile := SelectConfigFile(pathExists);
    if configFile == "" {
      r := Failure(NoValidConfigFile);
      return;
    }
    r := LoadFromFile(configFile, read, expand);
  }

  /**
   * The mismatch in `load_default` as written: when the configuration exists
   * only under the home directory, the literal candidate
   * "~/.config/simpledns/dns.config.yaml" does not exist (there is no
   * directory named `~`), so no candidate is found and loading fails, although
   * the expanded path, the one `load_from_file` would read, exists.
   */
  lemma HomeConfigMissedAsWritten(expand: Expander)
    requires expand(CONFIG_CANDIDATES[1]) == "/home/dns/.config/simpledns/dns.config.yaml"
    ensures var pathExists := (p: string) => p == "/home/dns/.config/simpledns/dns.config.yaml";
      && (forall j :: 0 <= j < |CONFIG_CANDIDATES| ==> !pathExists(CONFIG_CANDIDATES[j]))
      && pathExists(expand(CONFIG_CANDIDATES[1]))
  {
  }

  /**
   * `load_default` with the evidently intended existence test: each candidate
   * is tested at its expanded path, the same path `load_from_file` reads, so
   * the file found is always the file loaded.
   */
  method LoadDefaultExpanded(pathExists: string -> bool, read: Reader, expand: Expander)
    returns (configFile: string, r: Result<DnsSettings, ConfigError>)
    ensures configFile == "" <==> forall j :: 0 <= j < |CONFIG_CANDIDATES| ==> !pathExists(expand(CONFIG_CANDIDATES[j]))
    ensures configFile != "" ==>
      && pathExists(expand(configFile))
      && (exists k :: 0 <= k < |CONFIG_CANDIDATES| && configFile == CONFIG_CANDIDATES[k] &&
            forall j :: 0 <= j < k ==> !pathExists(expand(CONFIG_CANDIDATES[j])))
    ensures configFile == "" ==> r == Failure(NoValidConfigFile)
    ensures configFile != "" ==> r == LoadFromFile(configFile, read, expand)
  {
    configFile := SelectConfigFile(p => pathExists(expand(p)));
    if configFile == "" {
      r := Failure(NoValidConfigFile);
      return;
    }
    r := LoadFromFile(configFile, read, expand);
  }
}
