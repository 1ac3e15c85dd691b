/** The application settings: their defaults, the derived properties
    (environment tests, database URL, CORS origins and policy, whether a
    real LLM key is configured), the start-up validation and the summary
    shown by the health check. */
module Config {
  import opened Common

  /** The settings the rest of the service reads. Each field holds the value
      from the environment, or its default (`Defaults`). */
  datatype Settings = Settings(
    title: string,
    version: string,
    environment: string,
    debug: bool,
    postgresHost: string,
    postgresPort: int,
    postgresDatabase: string,
    postgresUser: string,
    postgresPassword: string,
    dbPoolSize: int,
    dbMaxOverflow: int,
    dbPoolTimeout: int,
    dbPoolRecycle: int,
    openaiApiUrl: string,
    openaiModel: string,
    openaiApiKey: string,
    llmCacheEnabled: bool,
    llmCacheSize: int,
    llmCacheTtlHours: int,
    serverHost: string,
    serverPort: int,
    corsOrigins: string,
    corsAllowCredentials: bool)

  /** The key shipped as the default: it stands for "no key configured". */
  const PlaceholderKey: string := "sk-proj-1234567890"

  /** The settings when no environment variable overrides anything. */
  const Defaults: Settings := Settings(
    "医疗报告分析API", "2.1.0", "development", false,
    "10.1.27.65", 5432, "patient_info", "postgres", "admin123",
    8, 15, 20, 1800,
    "http://localhost:11434/api/generate", "llama3.1", PlaceholderKey,
    true, 200, 12,
    "0.0.0.0", 7700, "http://localhost:3000", true)

  // ---------------------------------------------------------------- environment

  /** `str.lower()` on one ASCII character. */
  function LowerChar(c: char): char
  {
    if 'A' <= c <= 'Z' then (c as int + 32) as char else c
  }

  /** `s.lower()`. */
  function Lower(s: string): (r: string)
    ensures |r| == |s|
    ensures forall i :: 0 <= i < |s| ==> r[i] == LowerChar(s[i])
  {
    seq(|s|, i requires 0 <= i < |s| => LowerChar(s[i]))
  }

  /** Lower-casing twice is lower-casing once. */
  lemma LowerIdempotent(s: string)
    ensures Lower(Lower(s)) == Lower(s)
  {
    var once := Lower(s);
    var twice := Lower(once);
    forall i | 0 <= i < |s|
      ensures twice[i] == once[i]
    {
      var c := s[i];
      assert once[i] == LowerChar(c);
    }
  }

  /** `is_production`. */
  predicate IsProduction(s: Settings)
  {
    Lower(s.environment) == "production"
  }

  /** `is_development`. */
  predicate IsDevelopment(s: Settings)
  {
    Lower(s.environment) == "development"
  }

  /** The environment tests ignore case, and at most one of them holds. */
  lemma EnvironmentTests(s: Settings)
    ensures IsProduction(s) <==> IsProduction(s.(environment := Lower(s.environment)))
    ensures IsDevelopment(s) <==> IsDevelopment(s.(environment := Lower(s.environment)))
    ensures !(IsProduction(s) && IsDevelopment(s))
  {
    LowerIdempotent(s.environment);
    assert "production"[0] != "development"[0];
  }

  /** Upper-case spellings of the environment name count too. */
  lemma UpperCaseProduction(s: Settings)
    requires s.environment == "PRODUCTION"
    ensures IsProduction(s)
  {
    var r := Lower(s.environment);
    assert r == "production" by {
      forall i | 0 <= i < 10
        ensures r[i] == "production"[i]
      {
      }
    }
  }

  // ---------------------------------------------------------------- database

  /** `database_url`. */
  function DatabaseUrl(s: Settings): string
  {
    "postgresql://" + s.postgresUser + ":" + s.postgresPassword + "@" + s.postgresHost
      + ":" + IntToString(s.postgresPort) + "/" + s.postgresDatabase
  }

  /** The backward-compatible `DatabaseConfig` group. */
  datatype DatabaseConfig = DatabaseConfig(
    host: string, port: int, database: string, user: string, password: string,
    poolSize: int, maxOverflow: int, poolTimeout: int, poolRecycle: int)

  function DatabaseConfigOf(s: Settings): (d: DatabaseConfig)
    ensures d.host == s.postgresHost && d.port == s.postgresPort
    ensures d.database == s.postgresDatabase && d.user == s.postgresUser
    ensures d.password == s.postgresPassword
  {
    DatabaseConfig(s.postgresHost, s.postgresPort, s.postgresDatabase, s.postgresUser,
      s.postgresPassword, s.dbPoolSize, s.dbMaxOverflow, s.dbPoolTimeout, s.dbPoolRecycle)
  }

  /** `DatabaseConfig.url`, built from the group's own fields. */
  function ConfigUrl(d: DatabaseConfig): string
  {
    "postgresql://" + d.user + ":" + d.password + "@" + d.host
      + ":" + IntToString(d.port) + "/" + d.database
  }

  /** The URL is never empty, names the PostgreSQL scheme and ends with the
      database; the grouped configuration builds the same URL. */
  lemma DatabaseUrlShape(s: Settings)
    ensures DatabaseUrl(s) != ""
    ensures |DatabaseUrl(s)| > 13 && DatabaseUrl(s)[..13] == "postgresql://"
    ensures Contains(DatabaseUrl(s), "/" + s.postgresDatabase)
    ensures ConfigUrl(DatabaseConfigOf(s)) == DatabaseUrl(s)
  {
    var head := "postgresql://" + s.postgresUser + ":" + s.postgresPassword + "@" + s.postgresHost
      + ":" + IntToString(s.postgresPort);
    var tail := "/" + s.postgresDatabase;
    assert DatabaseUrl(s) == head + tail;
    assert DatabaseUrl(s)[..13] == head[..13];
    ContainsSuffix(head, tail);
  }

  // ---------------------------------------------------------------- CORS

  /** `cors_origins_list`: the comma-separated origins, each stripped. */
  function CorsOriginsList(s: Settings): (r: seq<string>)
    ensures |r| == |Split(s.corsOrigins, ",")|
    ensures forall i :: 0 <= i < |r| ==> r[i] == Strip(Split(s.corsOrigins, ",")[i])
  {
    var parts := Split(s.corsOrigins, ",");
    seq(|parts|, i requires 0 <= i < |parts| => Strip(parts[i]))
  }

  /** There is one origin more than there are commas, and every origin is
      already stripped. */
  lemma CorsOriginsCount(s: Settings)
    ensures |CorsOriginsList(s)| == CountChar(s.corsOrigins, ',') + 1
    ensures forall o :: o in CorsOriginsList(s) ==> Strip(o) == o
  {
    assert "," == [','];
    SplitCharCount(s.corsOrigins, ',');
    var r := CorsOriginsList(s);
    forall o | o in r
      ensures Strip(o) == o
    {
      var i :| 0 <= i < |r| && r[i] == o;
      StripIdempotent(Split(s.corsOrigins, ",")[i]);
    }
  }

  /** The keyword arguments given to the CORS middleware. */
  datatype CorsConfig = CorsConfig(
    allowOrigins: seq<string>,
    allowCredentials: bool,
    allowMethods: seq<string>,
    allowHeaders: seq<string>)

  /** `get_cors_config`. */
  function GetCorsConfig(s: Settings): CorsConfig
  {
    if IsProduction(s) then
      CorsConfig(CorsOriginsList(s), s.corsAllowCredentials, ["GET", "POST"],
        ["Content-Type", "Authorization"])
    else
      CorsConfig(["*"], true, ["*"], ["*"])
  }

  /** Production restricts methods and headers to the listed ones and uses
      the configured origins and credentials; every other environment opens
      everything. Methods are a wildcard exactly outside production. */
  lemma CorsPolicy(s: Settings)
    ensures GetCorsConfig(s).allowMethods == ["*"] <==> !IsProduction(s)
    ensures IsProduction(s) ==> (GetCorsConfig(s).allowOrigins == CorsOriginsList(s)
      && GetCorsConfig(s).allowCredentials == s.corsAllowCredentials
      && "*" !in GetCorsConfig(s).allowMethods && "*" !in GetCorsConfig(s).allowHeaders)
    ensures !IsProduction(s) ==> GetCorsConfig(s) == CorsConfig(["*"], true, ["*"], ["*"])
  {
    if IsProduction(s) {
      assert GetCorsConfig(s).allowMethods[0] == "GET" != "*";
    }
  }

  // ---------------------------------------------------------------- LLM

  /** `is_llm_configured`. */
  predicate IsLlmConfigured(s: Settings)
  {
    s.openaiApiKey != PlaceholderKey && |s.openaiApiKey| > 20
  }

  /** The placeholder is only 18 characters long, so the length test alone
      decides: a key is configured exactly when it is longer than 20. */
  lemma LlmConfiguredByLength(s: Settings)
    ensures IsLlmConfigured(s) <==> |s.openaiApiKey| > 20
    ensures !IsLlmConfigured(Defaults)
  {
    assert |PlaceholderKey| == 18;
  }

  // ---------------------------------------------------------------- validation

  /** The error lines `validate_configuration` collects, in order. The
      database URL is never empty (`DatabaseUrlShape`), so its error never
      appears. */
  function ConfigErrors(s: Settings): seq<string>
  {
    (if DatabaseUrl(s) == "" then ["数据库URL构建失败"] else [])
      + (if s.openaiApiUrl == "" then ["LLM API URL未配置"] else [])
      + (if s.serverPort < 1 || s.serverPort > 65535 then ["服务器端口配置错误"] else [])
  }

  /** Each error line prefixed with "- ". */
  function Bulleted(errors: seq<string>): (r: seq<string>)
    ensures |r| == |errors|
  {
    seq(|errors|, i requires 0 <= i < |errors| => "- " + errors[i])
  }

  /** The message of the `ValueError` raised when some check fails. */
  function ValidationMessage(errors: seq<string>): string
  {
    "配置验证失败:\n" + Join(Bulleted(errors), "\n")
  }

  /** `validate_configuration`: collects the failed checks one by one and
      raises with all of them, or returns `True`. */
  method ValidateConfiguration(s: Settings) returns (r: Result<bool, string>)
    ensures r.Err? <==> s.openaiApiUrl == "" || s.serverPort < 1 || s.serverPort > 65535
    ensures r.Ok? ==> r.value
    ensures r.Err? ==> r.error == ValidationMessage(ConfigErrors(s))
  {
    var errors: seq<string> := [];
    DatabaseUrlShape(s);
    var dbUrl := DatabaseUrl(s);
    if dbUrl == "" {
      errors := errors + ["数据库URL构建失败"];
    }
    if s.openaiApiUrl == "" {
      errors := errors + ["LLM API URL未配置"];
    }
    if s.serverPort < 1 || s.serverPort > 65535 {
      errors := errors + ["服务器端口配置错误"];
    }
    assert errors == ConfigErrors(s);
    if errors != [] {
      r := Err(ValidationMessage(errors));
    } else {
      r := Ok(true);
    }
  }

  lemma MessageOfOne(e: string)
    ensures ValidationMessage([e]) == "配置验证失败:\n" + "- " + e
  {
    assert Bulleted([e]) == ["- " + e];
  }

  lemma MessageOfTwo(e1: string, e2: string)
    ensures ValidationMessage([e1, e2]) == "配置验证失败:\n" + "- " + e1 + "\n" + "- " + e2
  {
    var b := Bulleted([e1, e2]);
    assert b == ["- " + e1, "- " + e2];
    assert b[1..] == ["- " + e2];
    assert Join(b, "\n") == "- " + e1 + "\n" + "- " + e2;
  }

  /** The three messages validation can raise, one line per failed check. */
  lemma ValidationMessages(s: Settings)
    ensures s.openaiApiUrl == "" && 1 <= s.serverPort <= 65535 ==>
      ValidationMessage(ConfigErrors(s)) == "配置验证失败:\n" + "- LLM API URL未配置"
    ensures s.openaiApiUrl != "" && !(1 <= s.serverPort <= 65535) ==>
      ValidationMessage(ConfigErrors(s)) == "配置验证失败:\n" + "- 服务器端口配置错误"
    ensures s.openaiApiUrl == "" && !(1 <= s.serverPort <= 65535) ==>
      ValidationMessage(ConfigErrors(s))
        == "配置验证失败:\n" + "- LLM API URL未配置" + "\n" + "- 服务器端口配置错误"
  {
    DatabaseUrlShape(s);
    var url := "LLM API URL未配置";
    var port := "服务器端口配置错误";
    if s.openaiApiUrl == "" && !(1 <= s.serverPort <= 65535) {
      assert ConfigErrors(s) == [url, port];
      MessageOfTwo(url, port);
    } else if s.openaiApiUrl == "" {
      assert ConfigErrors(s) == [url];
      MessageOfOne(url);
    } else if !(1 <= s.serverPort <= 65535) {
      assert ConfigErrors(s) == [port];
      MessageOfOne(port);
    }
  }

  /** The default settings pass validation. */
  lemma DefaultsAreValid()
    ensures ConfigErrors(Defaults) == []
    ensures IsDevelopment(Defaults) && !IsProduction(Defaults)
  {
    DatabaseUrlShape(Defaults);
    var e := Lower(Defaults.environment);
    assert e == "development" by {
      forall i | 0 <= i < 11
        ensures e[i] == "development"[i]
      {
      }
    }
  }

  // ---------------------------------------------------------------- summary

  function ApplicationSummary(s: Settings): map<string, Value>
  {
    map["title" := Str(s.title), "version" := Str(s.version),
        "environment" := Str(s.environment), "debug" := Bool(s.debug)]
  }

  function DatabaseSummary(s: Settings): map<string, Value>
  {
    map["host" := Str(s.postgresHost), "port" := Int(s.postgresPort),
        "database" := Str(s.postgresDatabase), "pool_size" := Int(s.dbPoolSize),
        "max_overflow" := Int(s.dbMaxOverflow)]
  }

  function LlmSummary(s: Settings): map<string, Value>
  {
    map["model" := Str(s.openaiModel), "api_configured" := Bool(IsLlmConfigured(s)),
        "cache_enabled" := Bool(s.llmCacheEnabled), "cache_size" := Int(s.llmCacheSize),
        "api_url" := Str(s.openaiApiUrl)]
  }

  function ServerSummary(s: Settings): map<string, Value>
  {
    map["host" := Str(s.serverHost), "port" := Int(s.serverPort),
        "cors_origins_count" := Int(|CorsOriginsList(s)|)]
  }

  /** `get_config_summary`. */
  function ConfigSummary(s: Settings): map<string, Value>
  {
    map["application" := Object(ApplicationSummary(s)),
        "database" := Object(DatabaseSummary(s)),
        "llm" := Object(LlmSummary(s)),
        "server" := Object(ServerSummary(s))]
  }

  /** A summary section with no user, password or API key. */
  predicate Secretless(m: map<string, Value>)
  {
    "password" !in m && "user" !in m && "api_key" !in m
  }

  lemma SectionsSecretless(s: Settings)
    ensures Secretless(ApplicationSummary(s)) && Secretless(DatabaseSummary(s))
    ensures Secretless(LlmSummary(s)) && Secretless(ServerSummary(s))
  {
  }

  lemma SummarySections(s: Settings)
    ensures ConfigSummary(s).Keys == {"application", "database", "llm", "server"}
    ensures ConfigSummary(s)["application"] == Object(ApplicationSummary(s))
    ensures ConfigSummary(s)["database"] == Object(DatabaseSummary(s))
    ensures ConfigSummary(s)["llm"] == Object(LlmSummary(s))
    ensures ConfigSummary(s)["server"] == Object(ServerSummary(s))
  {
  }

  /** The summary has four sections; it counts the CORS origins, reports
      whether a key is configured, and leaves out the user, the password and
      the API key. */
  lemma SummaryContents(s: Settings)
    ensures ConfigSummary(s).Keys == {"application", "database", "llm", "server"}
    ensures ConfigSummary(s)["server"] == Object(ServerSummary(s))
    ensures ServerSummary(s)["cors_origins_count"] == Int(CountChar(s.corsOrigins, ',') + 1)
    ensures LlmSummary(s)["api_configured"] == Bool(|s.openaiApiKey| > 20)
    ensures forall k :: k in ConfigSummary(s) ==> (ConfigSummary(s)[k].Object?
      && "password" !in ConfigSummary(s)[k].fields
      && "user" !in ConfigSummary(s)[k].fields
      && "api_key" !in ConfigSummary(s)[k].fields)
  {
    CorsOriginsCount(s);
    LlmConfiguredByLength(s);
    SummarySections(s);
    SectionsSecretless(s);
    forall k | k in ConfigSummary(s)
      ensures ConfigSummary(s)[k].Object? && Secretless(ConfigSummary(s)[k].fields)
    {
      assert k in {"application", "database", "llm", "server"};
    }
  }
}
