/**
 * The configuration reader of lib/utils/configReader.js: five configuration
 * sources merged with lodash `defaults` (the first defined value of a key
 * wins), then `whiteListHosts` forced from the collector URL, then the
 * required keys checked. The process, the environment, `require` and
 * `url.parse` are inputs gathered in an `Environment`; a thrown error is an
 * `Err`.
 */
module ConfigReader {
  import opened Options

  /** A JSON-like configuration value. */
  datatype Value =
    | Null
    | Bool(b: bool)
    | Num(n: int)
    | Str(s: string)
    | List(items: seq<Value>)
    | Obj(fields: map<string, Value>)

  /** JavaScript truthiness; `None` is `undefined`. */
  predicate Truthy(v: Option<Value>): (b: bool)
    ensures b <==> v.Some? && v.value !in [Null, Bool(false), Num(0), Str("")]
  {
    match v
    case None => false
    case Some(Null) => false
    case Some(Bool(b)) => b
    case Some(Num(n)) => n != 0
    case Some(Str(s)) => s != ""
    case Some(_) => true
  }

  /** A configuration object: a key that is absent reads as `undefined`. */
  type Config = map<string, Value>

  /** Reading a key of a configuration object. */
  function Field(c: Config, k: string): (v: Option<Value>)
    ensures v.Some? <==> k in c
    ensures v.Some? ==> v.value == c[k]
  {
    if k in c then Some(c[k]) else None
  }

  // ---- lodash `defaults` ----

  /** `defaults(target, source)`: the source fills only the keys the target lacks. */
  function Defaults(target: Config, source: Config): (r: Config)
    ensures r.Keys == target.Keys + source.Keys
    ensures forall k :: Field(r, k) == (if k in target then Field(target, k) else Field(source, k))
  {
    source + target
  }

  /** `defaults(target, s1, s2, ...)`: the sources applied left to right. */
  function DefaultsAll(target: Config, sources: seq<Config>): (r: Config)
    ensures target.Keys <= r.Keys
    ensures forall k :: k in target ==> r[k] == target[k]
    decreases |sources|
  {
    if sources == [] then target else DefaultsAll(Defaults(target, sources[0]), sources[1..])
  }

  /** The value of `k` in the first of `sources` that defines it. */
  function FirstDefined(sources: seq<Config>, k: string): (r: Option<Value>)
    ensures r.Some? <==> exists i :: 0 <= i < |sources| && k in sources[i]
    ensures r.Some? ==> exists i :: (0 <= i < |sources| && k in sources[i] && r.value == sources[i][k]
      && forall j :: 0 <= j < i ==> k !in sources[j])
  {
    if sources == [] then None
    else if k in sources[0] then Some(sources[0][k])
    else
      var rest := FirstDefined(sources[1..], k);
      assert forall i :: 1 <= i < |sources| ==> sources[i] == sources[1..][i - 1];
      rest
  }

  /** The first source that defines `k` supplies its value. */
  lemma FirstDefinedAt(sources: seq<Config>, k: string, i: nat)
    requires i < |sources| && k in sources[i]
    requires forall j :: 0 <= j < i ==> k !in sources[j]
    ensures FirstDefined(sources, k) == Some(sources[i][k])
  {
    var r := FirstDefined(sources, k);
    var w :| 0 <= w < |sources| && k in sources[w] && r.value == sources[w][k]
      && forall j :: 0 <= j < w ==> k !in sources[j];
    assert w == i;
  }

  /** The first defined value over two lists of sources in a row. */
  lemma {:induction false} FirstDefinedAppend(a: seq<Config>, b: seq<Config>, k: string)
    ensures FirstDefined(a + b, k) == if FirstDefined(a, k).Some? then FirstDefined(a, k) else FirstDefined(b, k)
  {
    if a == [] {
      assert a + b == b;
    } else {
      assert (a + b)[1..] == a[1..] + b;
      FirstDefinedAppend(a[1..], b, k);
    }
  }

  /** lodash `defaults` gives every key the value of the first argument that defines it. */
  lemma {:induction false} DefaultsAllPrecedence(target: Config, sources: seq<Config>)
    ensures forall k :: Field(DefaultsAll(target, sources), k) == FirstDefined([target] + sources, k)
    decreases |sources|
  {
    if sources != [] {
      var next := Defaults(target, sources[0]);
      DefaultsAllPrecedence(next, sources[1..]);
      forall k
        ensures Field(DefaultsAll(target, sources), k) == FirstDefined([target] + sources, k)
      {
        assert ([next] + sources[1..])[1..] == sources[1..];
        assert ([target] + sources)[1..] == sources;
        assert sources[1..] == ([target] + sources)[1..][1..];
      }
    }
  }

  /** Calling `defaults` twice in a row is one call with all the sources. */
  lemma {:induction false} DefaultsAllConcat(target: Config, a: seq<Config>, b: seq<Config>)
    ensures DefaultsAll(DefaultsAll(target, a), b) == DefaultsAll(target, a + b)
    decreases |a|
  {
    if a == [] {
      assert a + b == b;
    } else {
      assert (a + b)[0] == a[0];
      assert (a + b)[1..] == a[1..] + b;
      DefaultsAllConcat(Defaults(target, a[0]), a[1..], b);
    }
  }

  /**
   * Merging some sources into `{}` and then the rest into the result gives
   * every key its first defined value over all the sources.
   */
  lemma TwoStageMerge(a: seq<Config>, b: seq<Config>)
    ensures forall k :: Field(DefaultsAll(DefaultsAll(map[], a), b), k) == FirstDefined(a + b, k)
  {
    DefaultsAllConcat(map[], a, b);
    DefaultsAllPrecedence(map[], a + b);
    assert ([map[]] + (a + b))[1..] == a + b;
  }

  // ---- the reader and its inputs ----

  /** A `ConfigReader` holds the configuration it was created with. */
  datatype Reader = Reader(parameterConfig: Config)

  /** The constructor: a missing (falsy) argument is replaced by `{}`. */
  function Create(config: Option<Config>): (r: Reader)
    ensures config.None? ==> r.parameterConfig == map[]
    ensures config.Some? ==> r.parameterConfig == config.value
    ensures forall k :: Field(r.parameterConfig, k).Some? ==> config.Some?
  {
    Reader(if config.Some? then config.value else map[])
  }

  /** What loading the configuration file (`require`) does. */
  datatype FileOutcome = Loaded(config: Config) | NotFound | OtherError

  /** What `JSON.parse` does. */
  datatype JsonOutcome = Parsed(json: Value) | ParseFailed

  /** What the reader gets from outside the module. */
  datatype Environment = Environment(
    /** The `system` object `_getSystemConfig` describes the process with. */
    system: Value,
    /** `process.env`. */
    env: map<string, string>,
    /** The defaults module `_getDefaultConfig` requires. */
    defaultConfig: Config,
    /** Loading the configuration file at a path. */
    readConfigFile: string -> FileOutcome,
    parseJson: string -> JsonOutcome,
    /** `url.parse(u).host`; `None` is `null`. */
    hostOf: string -> Option<string>)

  datatype ConfigError =
    | InvalidConfigFile
    | UrlNotString
    | MissingApiKey
    | MissingServiceName

  /** The messages of the errors `getConfig` throws itself. */
  function Message(e: ConfigError): (m: string)
    requires !e.UrlNotString?
    ensures m == "Invalid trace.config.js configuration file" <==> e == InvalidConfigFile
    ensures m == "Missing apiKey" <==> e == MissingApiKey
    ensures m == "Missing serviceName" <==> e == MissingServiceName
  {
    match e
    case InvalidConfigFile => "Invalid trace.config.js configuration file"
    case MissingApiKey => "Missing apiKey"
    case MissingServiceName => "Missing serviceName"
  }

  /** Each thrown error can be told apart by its message. */
  lemma MessagesDistinct(e1: ConfigError, e2: ConfigError)
    requires !e1.UrlNotString? && !e2.UrlNotString?
    ensures Message(e1) == Message(e2) ==> e1 == e2
  {
  }

  /** `_getSystemConfig`: a single `system` key. */
  function SystemConfig(io: Environment): (c: Config)
    ensures c.Keys == {"system"} && c["system"] == io.system
  {
    map["system" := io.system]
  }

  // ---- environment variables ----

  const IGNORE_HEADERS_VAR := "TRACE_IGNORE_HEADERS"

  /** The configuration keys read from the environment, and their variables. */
  const ENV_VARS: map<string, string> := map[
    "collectInterval" := "TRACE_COLLECT_INTERVAL",
    "initialSampleRate" := "TRACE_INITIAL_SAMPLE_RATE",
    "collectorApiUrl" := "TRACE_COLLECTOR_API_URL",
    "serviceName" := "TRACE_SERVICE_NAME",
    "configPath" := "TRACE_CONFIG_PATH",
    "apiKey" := "TRACE_API_KEY"]

  /** The environment's configuration, and whether the ignore-headers warning was printed. */
  datatype EnvVarConfig = EnvVarConfig(config: Config, warning: bool)

  /**
   * `_getEnvVarConfig`: each key whose variable is set takes its text;
   * `ignoreHeaders` is the parsed value of a non-empty TRACE_IGNORE_HEADERS
   * that is valid JSON; invalid JSON only prints a warning.
   */
  function GetEnvVarConfig(io: Environment): (r: EnvVarConfig)
    ensures r.config.Keys <= ENV_VARS.Keys + {"ignoreHeaders"}
    ensures forall k :: k in ENV_VARS ==>
      Field(r.config, k) == if ENV_VARS[k] in io.env then Some(Str(io.env[ENV_VARS[k]])) else None
    ensures "ignoreHeaders" in r.config <==>
      IGNORE_HEADERS_VAR in io.env && io.env[IGNORE_HEADERS_VAR] != ""
      && io.parseJson(io.env[IGNORE_HEADERS_VAR]).Parsed?
    ensures "ignoreHeaders" in r.config ==>
      r.config["ignoreHeaders"] == io.parseJson(io.env[IGNORE_HEADERS_VAR]).json
    ensures r.warning <==>
      IGNORE_HEADERS_VAR in io.env && io.env[IGNORE_HEADERS_VAR] != ""
      && io.parseJson(io.env[IGNORE_HEADERS_VAR]).ParseFailed?
  {
    var base := map k | k in ENV_VARS && ENV_VARS[k] in io.env :: Str(io.env[ENV_VARS[k]]);
    assert "ignoreHeaders" !in ENV_VARS;
    if IGNORE_HEADERS_VAR in io.env && io.env[IGNORE_HEADERS_VAR] != "" then
      match io.parseJson(io.env[IGNORE_HEADERS_VAR])
      case Parsed(v) => EnvVarConfig(Defaults(base, map["ignoreHeaders" := v]), false)
      case ParseFailed => EnvVarConfig(base, true)
    else EnvVarConfig(base, false)
  }

  // ---- the configuration file ----

  /**
   * `||` on JavaScript values: the first operand when truthy, else the
   * second.
   */
  function Or(a: Option<Value>, b: Option<Value>): (r: Option<Value>)
    ensures Truthy(r) <==> Truthy(a) || Truthy(b)
    ensures r == a || r == b
  {
    if Truthy(a) then a else b
  }

  /**
   * The configuration file path: the parameter's `configPath`, else the
   * environment's, else the default's; falsy values fall through.
   */
  function ConfigFilePath(parameterConfig: Config, envConfig: Config, defaultConfig: Config): (p: Option<Value>)
    ensures Truthy(Field(parameterConfig, "configPath")) ==> p == Field(parameterConfig, "configPath")
    ensures !Truthy(Field(parameterConfig, "configPath")) && Truthy(Field(envConfig, "configPath"))
      ==> p == Field(envConfig, "configPath")
    ensures !Truthy(Field(parameterConfig, "configPath")) && !Truthy(Field(envConfig, "configPath"))
      ==> p == Field(defaultConfig, "configPath")
  {
    Or(Or(Field(parameterConfig, "configPath"), Field(envConfig, "configPath")), Field(defaultConfig, "configPath"))
  }

  /**
   * `_getFileConfig`: no (falsy) path gives `{}`; a file that is not found
   * gives `{}`; any other failure, including a path that is not a string,
   * is an invalid configuration file.
   */
  function GetFileConfig(file: Option<Value>, readConfigFile: string -> FileOutcome): (r: Result<Config, ConfigError>)
    ensures !Truthy(file) ==> r == Ok(map[])
    ensures Truthy(file) && !file.value.Str? ==> r == Err(InvalidConfigFile)
    ensures Truthy(file) && file.value.Str? ==>
      match readConfigFile(file.value.s)
      case Loaded(c) => r == Ok(c)
      case NotFound => r == Ok(map[])
      case OtherError => r == Err(InvalidConfigFile)
    ensures r.Err? ==> r.error == InvalidConfigFile
  {
    if !Truthy(file) then Ok(map[])
    else if !file.value.Str? then Err(InvalidConfigFile)
    else
      match readConfigFile(file.value.s)
      case Loaded(c) => Ok(c)
      case NotFound => Ok(map[])
      case OtherError => Err(InvalidConfigFile)
  }

  // ---- getConfig ----

  /** The configuration file path `getConfig` resolves. */
  function FilePath(reader: Reader, io: Environment): (path: Option<Value>)
    ensures var param := Field(reader.parameterConfig, "configPath");
      var env := if "TRACE_CONFIG_PATH" in io.env then Some(Str(io.env["TRACE_CONFIG_PATH"])) else None;
      path == if Truthy(param) then param else if Truthy(env) then env else Field(io.defaultConfig, "configPath")
  {
    ConfigFilePath(reader.parameterConfig, GetEnvVarConfig(io).config, io.defaultConfig)
  }

  /** The five sources in precedence order, once the file has loaded. */
  function Sources(reader: Reader, io: Environment, fileConfig: Config): (s: seq<Config>)
    ensures |s| == 5
  {
    [reader.parameterConfig, SystemConfig(io), GetEnvVarConfig(io).config, fileConfig, io.defaultConfig]
  }

  /** The one-element `whiteListHosts` list for a collector URL. */
  function WhiteList(io: Environment, url: string): (v: Value)
    ensures v.List? && |v.items| == 1
    ensures io.hostOf(url).Some? ==> v.items[0] == Str(io.hostOf(url).value)
    ensures io.hostOf(url).None? ==> v.items[0] == Null
  {
    List([if io.hostOf(url).Some? then Str(io.hostOf(url).value) else Null])
  }

  /**
   * The two `defaults` calls of `getConfig`: parameter, system and
   * environment into `{}`, then file and default into the result.
   */
  function Merge(parameterConfig: Config, systemConfig: Config, envConfig: Config,
                 fileConfig: Config, defaultConfig: Config): (c: Config)
    ensures forall k :: Field(c, k) == FirstDefined([parameterConfig, systemConfig, envConfig, fileConfig, defaultConfig], k)
  {
    var first, second := [parameterConfig, systemConfig, envConfig], [fileConfig, defaultConfig];
    var config := DefaultsAll(map[], first);
    TwoStageMerge(first, second);
    assert first + second == [parameterConfig, systemConfig, envConfig, fileConfig, defaultConfig];
    DefaultsAll(config, second)
  }

  /**
   * The end of `getConfig`, on the merged configuration: a collector URL that
   * is not a string makes `url.parse` throw; otherwise `whiteListHosts` is
   * replaced by the URL's host, then a falsy `apiKey` and then a falsy
   * `serviceName` are rejected.
   */
  function Finish(merged: Config, io: Environment): (r: Result<Config, ConfigError>)
    ensures var url := Field(merged, "collectorApiUrl");
      && (r == Err(UrlNotString) <==> !(url.Some? && url.value.Str?))
      && (r == Err(MissingApiKey) <==> url.Some? && url.value.Str? && !Truthy(Field(merged, "apiKey")))
      && (r == Err(MissingServiceName) <==>
            url.Some? && url.value.Str? && Truthy(Field(merged, "apiKey")) && !Truthy(Field(merged, "serviceName")))
      && (r.Ok? ==>
            && (forall k :: k != "whiteListHosts" ==> Field(r.value, k) == Field(merged, k))
            && Field(r.value, "whiteListHosts") == Some(WhiteList(io, url.value.s)))
    ensures r.Err? ==> r.error != InvalidConfigFile
    ensures r.Ok? ==> Truthy(Field(r.value, "apiKey")) && Truthy(Field(r.value, "serviceName"))
  {
    match Field(merged, "collectorApiUrl")
    case Some(Str(url)) =>
      var config := merged["whiteListHosts" := WhiteList(io, url)];
      assert Field(config, "apiKey") == Field(merged, "apiKey");
      assert Field(config, "serviceName") == Field(merged, "serviceName");
      if !Truthy(Field(config, "apiKey")) then Err(MissingApiKey)
      else if !Truthy(Field(config, "serviceName")) then Err(MissingServiceName)
      else Ok(config)
    case _ => Err(UrlNotString)
  }

  /** The configuration file `getConfig` loads, or the error loading it throws. */
  function FileStage(reader: Reader, io: Environment): (r: Result<Config, ConfigError>)
    ensures r.Err? ==> r.error == InvalidConfigFile
    ensures var path := FilePath(reader, io);
      r.Err? <==> Truthy(path) && (!path.value.Str? || io.readConfigFile(path.value.s).OtherError?)
  {
    GetFileConfig(FilePath(reader, io), io.readConfigFile)
  }

  /**
   * `getConfig`: the configuration file is loaded, the sources merged, and
   * the result finished. A returned configuration always has a truthy
   * `apiKey` and `serviceName` and a `whiteListHosts` list.
   */
  function GetConfig(reader: Reader, io: Environment): (r: Result<Config, ConfigError>)
    ensures r.Ok? ==> Truthy(Field(r.value, "apiKey")) && Truthy(Field(r.value, "serviceName"))
    ensures r.Ok? ==> "whiteListHosts" in r.value && r.value["whiteListHosts"].List?
  {
    match FileStage(reader, io)
    case Err(e) => Err(e)
    case Ok(fileConfig) =>
      Finish(Merge(reader.parameterConfig, SystemConfig(io), GetEnvVarConfig(io).config, fileConfig, io.defaultConfig), io)
  }

  /** `Finish` on a merge of `sources`, stated in terms of the sources. */
  lemma FinishMerged(merged: Config, sources: seq<Config>, io: Environment)
    requires forall k :: Field(merged, k) == FirstDefined(sources, k)
    ensures
      var r := Finish(merged, io);
      var url := FirstDefined(sources, "collectorApiUrl");
      && (r == Err(UrlNotString) <==> !(url.Some? && url.value.Str?))
      && (r == Err(MissingApiKey) <==>
            url.Some? && url.value.Str? && !Truthy(FirstDefined(sources, "apiKey")))
      && (r == Err(MissingServiceName) <==>
            url.Some? && url.value.Str? && Truthy(FirstDefined(sources, "apiKey"))
            && !Truthy(FirstDefined(sources, "serviceName")))
      && (r.Ok? ==>
            && (forall k :: k != "whiteListHosts" ==> Field(r.value, k) == FirstDefined(sources, k))
            && Field(r.value, "whiteListHosts") == Some(WhiteList(io, url.value.s)))
  {
    assert Field(merged, "collectorApiUrl") == FirstDefined(sources, "collectorApiUrl");
    assert Field(merged, "apiKey") == FirstDefined(sources, "apiKey");
    assert Field(merged, "serviceName") == FirstDefined(sources, "serviceName");
  }

  /**
   * What `getConfig` returns or throws. A failure to load the file comes
   * first; then a collector URL that is not a string, a falsy `apiKey` and a
   * falsy `serviceName`, judged on the first defined values of parameter,
   * system, environment, file and default, each exactly in its case. On
   * success every key but `whiteListHosts` holds its first defined value and
   * `whiteListHosts` is the host list of the collector URL.
   */
  lemma GetConfigOutcome(reader: Reader, io: Environment)
    ensures FileStage(reader, io).Err? ==> GetConfig(reader, io) == Err(InvalidConfigFile)
    ensures FileStage(reader, io).Ok? ==>
      var r := GetConfig(reader, io);
      var sources := Sources(reader, io, FileStage(reader, io).value);
      var url := FirstDefined(sources, "collectorApiUrl");
      && (r == Err(UrlNotString) <==> !(url.Some? && url.value.Str?))
      && (r == Err(MissingApiKey) <==>
            url.Some? && url.value.Str? && !Truthy(FirstDefined(sources, "apiKey")))
      && (r == Err(MissingServiceName) <==>
            url.Some? && url.value.Str? && Truthy(FirstDefined(sources, "apiKey"))
            && !Truthy(FirstDefined(sources, "serviceName")))
      && (r.Ok? ==>
            && (forall k :: k != "whiteListHosts" ==> Field(r.value, k) == FirstDefined(sources, k))
            && Field(r.value, "whiteListHosts") == Some(WhiteList(io, url.value.s)))
  {
    var file := FileStage(reader, io);
    if file.Ok? {
      var sources := Sources(reader, io, file.value);
      var merged := Merge(reader.parameterConfig, SystemConfig(io), GetEnvVarConfig(io).config, file.value, io.defaultConfig);
      assert GetConfig(reader, io) == Finish(merged, io);
      FinishMerged(merged, sources, io);
    }
  }

  /**
   * The merge takes the first defined value, not the first truthy one: a
   * TRACE_API_KEY set to the empty string hides an `apiKey` in the file or
   * the defaults, so `getConfig` never succeeds.
   */
  lemma EmptyEnvApiKeyMasksLaterSources(reader: Reader, io: Environment)
    requires "apiKey" !in reader.parameterConfig
    requires "TRACE_API_KEY" in io.env && io.env["TRACE_API_KEY"] == ""
    ensures !GetConfig(reader, io).Ok?
  {
    var file := FileStage(reader, io);
    if file.Ok? {
      EmptyEnvApiKeyFirst(reader, io, file.value);
      GetConfigOutcome(reader, io);
    }
  }

  /** Under those conditions the empty environment value is the first `apiKey` defined. */
  lemma EmptyEnvApiKeyFirst(reader: Reader, io: Environment, fileConfig: Config)
    requires "apiKey" !in reader.parameterConfig
    requires "TRACE_API_KEY" in io.env && io.env["TRACE_API_KEY"] == ""
    ensures FirstDefined(Sources(reader, io, fileConfig), "apiKey") == Some(Str(""))
  {
    var sources := Sources(reader, io, fileConfig);
    assert Field(sources[2], "apiKey") == Some(Str("")) by {
      assert ENV_VARS["apiKey"] == "TRACE_API_KEY";
    }
    assert "apiKey" !in sources[1] by {
      assert sources[1].Keys == {"system"} && "apiKey"[0] != "system"[0];
    }
    assert "apiKey" !in sources[0];
    FirstDefinedAt(sources, "apiKey", 2);
  }
}
