/**
 * Request building shared by the gRPC and the FFI adapters: the three
 * string-to-enum mappings, the datasource descriptor built from a loose
 * configuration map, chat-message conversion, insert rows and the LLM
 * descriptor. Both adapters build their protobuf requests with these members,
 * so the two transports send the same request for the same call.
 */
module Builders {
  import opened Wrappers
  import opened Proto
  import opened ClientTypes
  import opened Fmt

  /**
   * The outcome of code that performs Go's unchecked type assertions
   * (`m[key].(string)` without the `, ok` form): the value, or a panic naming
   * the key whose assertion failed.
   */
  datatype Assert<+T> = Ok(value: T) | Panic(key: string) {

    predicate IsFailure() {
      Panic?
    }

    function PropagateFailure<U>(): Assert<U>
      requires Panic?
    {
      Panic(key)
    }

    function Extract(): T
      requires Ok?
    {
      value
    }
  }

  // ---------------------------------------------------------------------
  // String-to-enum mappings: total, unknown strings map to "unspecified".
  // ---------------------------------------------------------------------

  const PostgresDrivers: set<string> := {"postgres", "postgresql"}
  const MongoDrivers: set<string> := {"mongodb", "mongo"}
  const KnownDrivers: set<string> := {"postgres", "postgresql", "mysql", "redis", "mongodb", "mongo", "kafka"}

  function MapDataSourceType(driver: string): (t: DataSourceType)
    ensures t == PostgreSql <==> driver in PostgresDrivers
    ensures t == MySql <==> driver == "mysql"
    ensures t == Redis <==> driver == "redis"
    ensures t == MongoDb <==> driver in MongoDrivers
    ensures t == Kafka <==> driver == "kafka"
    ensures t == DataSourceTypeUnspecified <==> driver !in KnownDrivers
  {
    if driver == "postgres" || driver == "postgresql" then PostgreSql
    else if driver == "mysql" then MySql
    else if driver == "redis" then Redis
    else if driver == "mongodb" || driver == "mongo" then MongoDb
    else if driver == "kafka" then Kafka
    else DataSourceTypeUnspecified
  }

  function MapLLMProvider(provider: string): (p: LLMProvider)
    ensures p == OpenAI <==> provider == "openai"
    ensures p == Ollama <==> provider == "ollama"
    ensures p == Anthropic <==> provider == "anthropic" || provider == "claude"
    ensures p == LocalProvider <==> provider == "local"
    ensures p == ProviderUnspecified <==> provider !in {"openai", "ollama", "anthropic", "claude", "local"}
  {
    if provider == "openai" then OpenAI
    else if provider == "ollama" then Ollama
    else if provider == "anthropic" || provider == "claude" then Anthropic
    else if provider == "local" then LocalProvider
    else ProviderUnspecified
  }

  function MapMessageRole(role: string): (r: MessageRole)
    ensures r == SystemRole <==> role == "system"
    ensures r == UserRole <==> role == "user"
    ensures r == AssistantRole <==> role == "assistant"
    ensures r == RoleUnspecified <==> role !in {"system", "user", "assistant"}
  {
    if role == "system" then SystemRole
    else if role == "user" then UserRole
    else if role == "assistant" then AssistantRole
    else RoleUnspecified
  }

  // The canonical strings, one per tag; "" for the unspecified tags.

  function DriverName(t: DataSourceType): string {
    match t
    case DataSourceTypeUnspecified => ""
    case PostgreSql => "postgres"
    case MySql => "mysql"
    case Redis => "redis"
    case MongoDb => "mongodb"
    case Kafka => "kafka"
  }

  function ProviderName(p: LLMProvider): string {
    match p
    case ProviderUnspecified => ""
    case OpenAI => "openai"
    case Ollama => "ollama"
    case Anthropic => "anthropic"
    case LocalProvider => "local"
  }

  function RoleName(r: MessageRole): string {
    match r
    case RoleUnspecified => ""
    case SystemRole => "system"
    case UserRole => "user"
    case AssistantRole => "assistant"
  }

  /** Every tag is reached: each mapping is onto, and its canonical string maps back to it. */
  lemma MappingsAreOnto(t: DataSourceType, p: LLMProvider, r: MessageRole)
    ensures MapDataSourceType(DriverName(t)) == t
    ensures MapLLMProvider(ProviderName(p)) == p
    ensures MapMessageRole(RoleName(r)) == r
  {
  }

  // ---------------------------------------------------------------------
  // Reading a loose configuration map.
  // ---------------------------------------------------------------------

  /** `if s, ok := m[key].(string); ok { ... }`, with "" when the key is missing or not a string. */
  function StringField(m: Config, key: string): string {
    if key in m && m[key].Str? then m[key].s else ""
  }

  /** `m[key].(string)`: panics when the key is missing or holds no string. */
  function AssertString(m: Config, key: string): (r: Assert<string>)
    ensures r.Ok? <==> key in m && m[key].Str?
    ensures r.Ok? ==> r.value == m[key].s
    ensures r.Panic? ==> r.key == key
  {
    if key in m && m[key].Str? then Ok(m[key].s) else Panic(key)
  }

  /** `int(m[key].(float64))`: panics when the key is missing or holds no number. */
  function AssertNumber(m: Config, key: string): (r: Assert<int>)
    ensures r.Ok? <==> key in m && m[key].Num?
    ensures r.Ok? ==> r.value == m[key].n
    ensures r.Panic? ==> r.key == key
  {
    if key in m && m[key].Num? then Ok(m[key].n) else Panic(key)
  }

  // ---------------------------------------------------------------------
  // The datasource descriptor (type tag, URL, extras) of CreateDataSource.
  // ---------------------------------------------------------------------

  /** Keys that are never copied verbatim into the extras map. */
  const Reserved: set<string> := {"driver", "host", "port", "database", "username", "password", "brokers"}
  const CredentialKeys: set<string> := {"username", "password"}

  /** The driver string, or "" when "driver" is missing or is not a string. */
  function DriverOf(config: Config): string {
    StringField(config, "driver")
  }

  function HostPortUrl(prefix: string, config: Config): Assert<string> {
    var host :- AssertString(config, "host");
    var port :- AssertNumber(config, "port");
    Ok(prefix + host + ":" + IntToString(port))
  }

  function HostPortDatabaseUrl(prefix: string, config: Config): Assert<string> {
    var host :- AssertString(config, "host");
    var port :- AssertNumber(config, "port");
    var database :- AssertString(config, "database");
    Ok(prefix + host + ":" + IntToString(port) + "/" + database)
  }

  /** The connection URL, chosen by the driver alone. */
  function ConnectionUrl(config: Config): Assert<string> {
    var driver := DriverOf(config);
    if driver in PostgresDrivers then HostPortDatabaseUrl("postgres://", config)
    else if driver == "mysql" then HostPortDatabaseUrl("mysql://", config)
    else if driver == "redis" then HostPortUrl("redis://", config)
    else if driver in MongoDrivers then HostPortUrl("mongodb://", config)
    else if driver == "kafka" then Ok(StringField(config, "brokers"))
    else Ok("")
  }

  /** Username and password, kept only for the postgres drivers and only when they are strings. */
  function Credentials(config: Config): map<string, string> {
    if DriverOf(config) in PostgresDrivers then
      (if "username" in config && config["username"].Str? then map["username" := config["username"].s] else map[])
      + (if "password" in config && config["password"].Str? then map["password" := config["password"].s] else map[])
    else map[]
  }

  /** Every non-reserved key, with its value printed by `%v`. */
  function CopiedExtras(config: Config): map<string, string> {
    map k | k in config && k !in Reserved :: Show(config[k])
  }

  /** The descriptor CreateDataSource sends, or the panic of a failed type assertion. */
  function DataSourceDescriptor(config: Config): (r: Assert<DataSourceConfig>)
    ensures r.Panic? ==> r.key == "host" || r.key == "port" || r.key == "database"
    ensures r.Ok? ==> r.value.kind == MapDataSourceType(DriverOf(config))
    ensures r.Ok? ==> forall k :: k in r.value.extra ==>
      k in config && k != "driver" && k != "host" && k != "port" && k != "database" && k != "brokers"
  {
    var url :- ConnectionUrl(config);
    Ok(DataSourceConfig(MapDataSourceType(DriverOf(config)), url, Credentials(config) + CopiedExtras(config)))
  }

  /**
   * Builds the descriptor the way CreateDataSource does it: the URL by a switch
   * on the driver, then the extras by a pass over the configuration map.
   */
  method BuildDataSourceConfig(config: Config) returns (r: Assert<DataSourceConfig>)
    ensures r == DataSourceDescriptor(config)
  {
    var url := "";
    var extra: map<string, string> := map[];
    var driver := "";
    if "driver" in config && config["driver"].Str? {
      driver := config["driver"].s;
      if driver == "postgres" || driver == "postgresql" {
        var host :- AssertString(config, "host");
        var port :- AssertNumber(config, "port");
        var database :- AssertString(config, "database");
        url := "postgres://" + host + ":" + IntToString(port) + "/" + database;
        assert driver in PostgresDrivers && HostPortDatabaseUrl("postgres://", config) == Ok(url);
        if "username" in config && config["username"].Str? {
          extra := extra["username" := config["username"].s];
        }
        if "password" in config && config["password"].Str? {
          extra := extra["password" := config["password"].s];
        }
      } else if driver == "mysql" {
        var host :- AssertString(config, "host");
        var port :- AssertNumber(config, "port");
        var database :- AssertString(config, "database");
        url := "mysql://" + host + ":" + IntToString(port) + "/" + database;
        assert HostPortDatabaseUrl("mysql://", config) == Ok(url);
      } else if driver == "redis" {
        var host :- AssertString(config, "host");
        var port :- AssertNumber(config, "port");
        url := "redis://" + host + ":" + IntToString(port);
        assert HostPortUrl("redis://", config) == Ok(url);
      } else if driver == "mongodb" || driver == "mongo" {
        var host :- AssertString(config, "host");
        var port :- AssertNumber(config, "port");
        url := "mongodb://" + host + ":" + IntToString(port);
        assert driver in MongoDrivers && HostPortUrl("mongodb://", config) == Ok(url);
      } else if driver == "kafka" {
        if "brokers" in config && config["brokers"].Str? {
          url := config["brokers"].s;
        }
      }
    }
    assert driver == DriverOf(config);
    assert ConnectionUrl(config) == Ok(url);
    assert extra == Credentials(config);

    extra := CopyRemaining(config, extra);
    r := Ok(DataSourceConfig(MapDataSourceType(driver), url, extra));
  }

  /** The pass over the configuration map that adds every non-reserved key to `extra`. */
  method CopyRemaining(config: Config, extra0: map<string, string>) returns (extra: map<string, string>)
    ensures extra == extra0 + CopiedExtras(config)
  {
    extra := extra0;
    var pending := config.Keys;
    while pending != {}
      invariant pending <= config.Keys
      invariant extra == extra0 + map k | k in config.Keys - pending && k !in Reserved :: Show(config[k])
      decreases pending
    {
      var k :| k in pending;
      if k !in Reserved {
        extra := extra[k := Show(config[k])];
      }
      pending := pending - {k};
    }
    assert config.Keys - pending == config.Keys;
  }

  /** The URL depends on the driver only; the drivers that build one from host and port need them typed. */
  lemma DescriptorUrl(config: Config)
    requires DataSourceDescriptor(config).Ok?
    ensures var url := DataSourceDescriptor(config).value.url;
            var driver := DriverOf(config);
            && (driver in PostgresDrivers ==>
                  && AssertString(config, "host").Ok? && AssertNumber(config, "port").Ok? && AssertString(config, "database").Ok?
                  && url == "postgres://" + config["host"].s + ":" + IntToString(config["port"].n) + "/" + config["database"].s)
            && (driver == "mysql" ==>
                  && AssertString(config, "host").Ok? && AssertNumber(config, "port").Ok? && AssertString(config, "database").Ok?
                  && url == "mysql://" + config["host"].s + ":" + IntToString(config["port"].n) + "/" + config["database"].s)
            && (driver == "redis" ==>
                  && AssertString(config, "host").Ok? && AssertNumber(config, "port").Ok?
                  && url == "redis://" + config["host"].s + ":" + IntToString(config["port"].n))
            && (driver in MongoDrivers ==>
                  && AssertString(config, "host").Ok? && AssertNumber(config, "port").Ok?
                  && url == "mongodb://" + config["host"].s + ":" + IntToString(config["port"].n))
            && (driver == "kafka" ==> url == StringField(config, "brokers"))
            && (driver !in KnownDrivers ==> url == "")
  {
  }

  /** The descriptor's type tag is the driver's tag ("" for a missing or non-string driver). */
  lemma DescriptorKind(config: Config)
    requires DataSourceDescriptor(config).Ok?
    ensures DataSourceDescriptor(config).value.kind == MapDataSourceType(DriverOf(config))
    ensures "driver" !in config || !config["driver"].Str? ==> DataSourceDescriptor(config).value.kind == DataSourceTypeUnspecified
  {
  }

  /**
   * Exactly when the unchecked type assertions panic: for a host-and-port
   * driver, the first of host (string), port (number), database (string, SQL
   * drivers only) that is missing or mistyped.
   */
  lemma DescriptorPanics(config: Config)
    ensures var d := DataSourceDescriptor(config);
            var driver := DriverOf(config);
            var sql := driver in PostgresDrivers || driver == "mysql";
            var hostPort := sql || driver == "redis" || driver in MongoDrivers;
            && (d.Panic? <==>
                  hostPort && (AssertString(config, "host").Panic? || AssertNumber(config, "port").Panic?
                               || (sql && AssertString(config, "database").Panic?)))
            && (d.Panic? ==>
                  d.key == (if AssertString(config, "host").Panic? then "host"
                            else if AssertNumber(config, "port").Panic? then "port"
                            else "database"))
  {
  }

  /**
   * The extras hold every non-reserved key of the configuration, plus the
   * username and password for the postgres drivers when they are strings, and
   * nothing else; each value is the `%v` text of the configuration value.
   */
  lemma DescriptorExtra(config: Config)
    requires DataSourceDescriptor(config).Ok?
    ensures var extra := DataSourceDescriptor(config).value.extra;
            && (forall k :: k in extra <==>
                  k in config && (k !in Reserved
                                  || (k in CredentialKeys && DriverOf(config) in PostgresDrivers && config[k].Str?)))
            && (forall k :: k in extra ==> k in config && extra[k] == Show(config[k]))
            && (forall k :: k in Reserved - CredentialKeys ==> k !in extra)
  {
  }

  /** MySQL credentials are neither put in the URL nor kept in the extras. */
  lemma MysqlCredentialsDropped(config: Config)
    requires DriverOf(config) == "mysql"
    requires DataSourceDescriptor(config).Ok?
    ensures "username" !in DataSourceDescriptor(config).value.extra
    ensures "password" !in DataSourceDescriptor(config).value.extra
  {
  }

  /** An unknown driver is never an error: unspecified tag, empty URL, plain extras. */
  lemma UnknownDriver(config: Config)
    requires DriverOf(config) !in KnownDrivers
    ensures DataSourceDescriptor(config) == Ok(DataSourceConfig(DataSourceTypeUnspecified, "", CopiedExtras(config)))
  {
    assert Credentials(config) + CopiedExtras(config) == CopiedExtras(config);
  }

  /** Kafka: the brokers string is the URL, verbatim, and no field is ever asserted. */
  lemma KafkaBrokersVerbatim(config: Config, brokers: string)
    requires DriverOf(config) == "kafka"
    requires "brokers" in config && config["brokers"] == Str(brokers)
    ensures DataSourceDescriptor(config).Ok?
    ensures DataSourceDescriptor(config).value == DataSourceConfig(Kafka, brokers, CopiedExtras(config))
  {
    assert Credentials(config) + CopiedExtras(config) == CopiedExtras(config);
  }

  /**
   * A postgres configuration as JSON decoding delivers it (the port a float64):
   * host, port, database and credentials.
   */
  function JsonPostgresConfig(): Config {
    map["driver" := Str("postgres"), "host" := Str("localhost"), "port" := Num(5432),
        "database" := Str("testdb"), "username" := Str("postgres"), "password" := Str("password")]
  }

  /**
   * `%d` of the example port. A proof step for `JsonPostgresUrl` only: it
   * models nothing in the client and keeps that proof cheap for the solver.
   */
  lemma ExamplePortText()
    ensures IntToString(5432) == "5432"
  {
    assert NatToString(5) == "5";
    assert NatToString(54) == "54";
    assert NatToString(543) == "543";
  }

  /** A SQL URL is built from the asserted host, port and database. */
  lemma HostPortDatabaseUrlOk(prefix: string, config: Config)
    requires AssertString(config, "host").Ok? && AssertNumber(config, "port").Ok? && AssertString(config, "database").Ok?
    ensures HostPortDatabaseUrl(prefix, config)
            == Ok(prefix + config["host"].s + ":" + IntToString(config["port"].n) + "/" + config["database"].s)
  {
  }

  /**
   * The pieces of the example URL, joined. A proof step for `JsonPostgresUrl`
   * only: string-constant arithmetic that models nothing in the client.
   */
  lemma ExampleUrlText()
    ensures "postgres://" + "localhost" + ":" + "5432" + "/" + "testdb" == "postgres://localhost:5432/testdb"
  {
    assert "postgres://" + "localhost" == "postgres://localhost";
    assert "postgres://localhost" + ":" == "postgres://localhost:";
    assert "postgres://localhost:" + "5432" == "postgres://localhost:5432";
    assert "postgres://localhost:5432" + "/" == "postgres://localhost:5432/";
    assert "postgres://localhost:5432/" + "testdb" == "postgres://localhost:5432/testdb";
  }

  lemma JsonPostgresUrl()
    ensures ConnectionUrl(JsonPostgresConfig()) == Ok("postgres://localhost:5432/testdb")
  {
    var config := JsonPostgresConfig();
    assert DriverOf(config) == "postgres";
    assert config["host"].s == "localhost" && config["port"].n == 5432 && config["database"].s == "testdb";
    HostPortDatabaseUrlOk("postgres://", config);
    ExamplePortText();
    ExampleUrlText();
  }

  /** The JSON-decoded postgres configuration: URL "postgres://localhost:5432/testdb", credentials kept. */
  lemma JsonPostgresDescriptor()
    ensures DataSourceDescriptor(JsonPostgresConfig())
            == Ok(DataSourceConfig(PostgreSql, "postgres://localhost:5432/testdb",
                                   map["username" := "postgres", "password" := "password"]))
  {
    var config := JsonPostgresConfig();
    JsonPostgresUrl();
    assert Credentials(config) == map["username" := "postgres", "password" := "password"] by {
      assert DriverOf(config) == "postgres";
    }
    assert CopiedExtras(config) == map[];
    assert Credentials(config) + CopiedExtras(config) == map["username" := "postgres", "password" := "password"];
  }

  /**
   * The same configuration written as a Go map literal, as the HTTP datasource
   * demo program writes it: the port literal is a Go `int`, not a float64, so
   * handed to the gRPC or FFI CreateDataSource it fails the port assertion.
   */
  lemma IntPortPanics()
    ensures DataSourceDescriptor(map["driver" := Str("postgres"), "host" := Str("localhost"), "port" := GoInt(5432),
                                     "database" := Str("testdb"), "username" := Str("postgres"), "password" := Str("password")])
            == Panic("port")
  {
  }

  /** A port given as a string (as the FFI datasource demo program does) makes the port assertion panic. */
  lemma StringPortPanics()
    ensures DataSourceDescriptor(map["driver" := Str("postgres"), "host" := Str("localhost"), "port" := Str("5432"),
                                     "database" := Str("testdb"), "username" := Str("postgres"), "password" := Str("password")])
            == Panic("port")
  {
  }

  // ---------------------------------------------------------------------
  // Chat messages.
  // ---------------------------------------------------------------------

  /** One chat message: role mapped from the "role" string, content from "content" ("" when absent). */
  function ProtoMessage(msg: Config): (m: LLMMessage)
    ensures "role" in msg && msg["role"].Str? ==> m.role == MapMessageRole(msg["role"].s)
    ensures !("role" in msg && msg["role"].Str?) ==> m.role == RoleUnspecified
    ensures "content" in msg && msg["content"].Str? ==> m.content == msg["content"].s
    ensures !("content" in msg && msg["content"].Str?) ==> m.content == ""
  {
    LLMMessage(MapMessageRole(StringField(msg, "role")), StringField(msg, "content"))
  }

  /** The map a caller writes for a message (the inverse direction). */
  function MessageMap(m: LLMMessage): Config {
    map["role" := Str(RoleName(m.role)), "content" := Str(m.content)]
  }

  /** Converting the caller's form of a message loses nothing. */
  lemma MessageRoundTrip(m: LLMMessage)
    ensures ProtoMessage(MessageMap(m)) == m
  {
    MappingsAreOnto(DataSourceTypeUnspecified, ProviderUnspecified, m.role);
  }

  /** A well-formed message map is recovered from its protobuf form. */
  lemma MessageMapRoundTrip(msg: Config)
    requires msg.Keys == {"role", "content"}
    requires msg["role"].Str? && msg["role"].s in {"system", "user", "assistant"}
    requires msg["content"].Str?
    ensures MessageMap(ProtoMessage(msg)) == msg
  {
  }

  /** A missing or non-string role is unspecified; a missing or non-string content is empty. */
  lemma MessageDefaults(msg: Config)
    ensures !("role" in msg && msg["role"].Str?) ==> ProtoMessage(msg).role == RoleUnspecified
    ensures !("content" in msg && msg["content"].Str?) ==> ProtoMessage(msg).content == ""
    ensures "content" in msg && msg["content"].Str? ==> ProtoMessage(msg).content == msg["content"].s
  {
  }

  /** The message list ChatLLM sends, one message per input. */
  function ProtoMessages(messages: seq<Config>): (r: seq<LLMMessage>)
    ensures |r| == |messages|
  {
    if messages == [] then [] else [ProtoMessage(messages[0])] + ProtoMessages(messages[1..])
  }

  /** Conversion keeps the length and the order: message i comes from input i. */
  lemma {:induction false} ProtoMessagesPreserveOrder(messages: seq<Config>)
    ensures |ProtoMessages(messages)| == |messages|
    ensures forall i :: 0 <= i < |messages| ==> ProtoMessages(messages)[i] == ProtoMessage(messages[i])
  {
    if messages != [] {
      ProtoMessagesPreserveOrder(messages[1..]);
    }
  }

  /** Conversion distributes over concatenation: earlier history stays first. */
  lemma {:induction false} ProtoMessagesAppend(a: seq<Config>, b: seq<Config>)
    ensures ProtoMessages(a + b) == ProtoMessages(a) + ProtoMessages(b)
  {
    if a == [] {
      assert a + b == b;
    } else {
      var ab := a + b;
      assert ab[0] == a[0] && ab[1..] == a[1..] + b;
      var head := [ProtoMessage(a[0])];
      assert ProtoMessages(ab) == head + ProtoMessages(a[1..] + b);
      assert ProtoMessages(a) == head + ProtoMessages(a[1..]);
      ProtoMessagesAppend(a[1..], b);
      assert head + (ProtoMessages(a[1..]) + ProtoMessages(b)) == (head + ProtoMessages(a[1..])) + ProtoMessages(b);
    }
  }

  /** ChatLLM's loop: fills a slice of the input's length, message i from input i. */
  method ConvertMessages(messages: seq<Config>) returns (out: seq<LLMMessage>)
    ensures out == ProtoMessages(messages)
  {
    var protoMessages := new LLMMessage[|messages|];
    for i := 0 to |messages|
      invariant forall j :: 0 <= j < i ==> protoMessages[j] == ProtoMessage(messages[j])
    {
      protoMessages[i] := ProtoMessage(messages[i]);
    }
    out := protoMessages[..];
    ProtoMessagesPreserveOrder(messages);
  }

  // ---------------------------------------------------------------------
  // Insert rows.
  // ---------------------------------------------------------------------

  /** The row InsertDataSource sends: every data value collapsed to its `%v` text. */
  function InsertRow(data: Config): (r: Row)
    ensures r.columns.Keys == data.Keys
    ensures forall k :: k in r.columns ==> r.columns[k].StringValue?
    ensures forall k :: k in data && data[k].Str? ==> r.columns[k] == StringValue(data[k].s)
  {
    Row(map k | k in data :: StringValue(Show(data[k])))
  }

  /** InsertDataSource's loop: every data key becomes a column holding the `%v` text of its value. */
  method BuildRow(data: Config) returns (row: Row)
    ensures row.columns.Keys == data.Keys
    ensures forall k :: k in data ==> row.columns[k] == StringValue(Show(data[k]))
    ensures row == InsertRow(data)
  {
    var columns: map<string, Value> := map[];
    var pending := data.Keys;
    while pending != {}
      invariant pending <= data.Keys
      invariant columns.Keys == data.Keys - pending
      invariant forall k :: k in columns ==> columns[k] == StringValue(Show(data[k]))
      decreases pending
    {
      var key :| key in pending;
      columns := columns[key := StringValue(Show(data[key]))];
      pending := pending - {key};
    }
    row := Row(columns);
  }

  // ---------------------------------------------------------------------
  // The LLM descriptor.
  // ---------------------------------------------------------------------

  /** CreateLLM's descriptor: provider, model and API key; every other key is dropped. */
  function LLMConfigOf(config: Config): (c: LLMConfig)
    ensures "provider" in config && config["provider"].Str? ==> c.provider == MapLLMProvider(config["provider"].s)
    ensures !("provider" in config && config["provider"].Str?) ==> c.provider == ProviderUnspecified
    ensures c.apiKey.Some? <==> "api_key" in config && config["api_key"].Str?
    ensures c.apiKey.Some? ==> c.apiKey.value == config["api_key"].s
    ensures "model" in config && config["model"].Str? ==> c.model == config["model"].s
    ensures !("model" in config && config["model"].Str?) ==> c.model == ""
  {
    LLMConfig(
      MapLLMProvider(StringField(config, "provider")),
      StringField(config, "model"),
      if "api_key" in config && config["api_key"].Str? then Some(config["api_key"].s) else None)
  }

  /** Two maps agree on a key: both lack it, or both hold the same value. */
  predicate AgreeOn(a: Config, b: Config, key: string) {
    (key in a <==> key in b) && (key in a ==> a[key] == b[key])
  }

  /** Only "provider", "model" and "api_key" influence the LLM descriptor. */
  lemma LLMConfigReadsThreeKeys(a: Config, b: Config)
    requires AgreeOn(a, b, "provider") && AgreeOn(a, b, "model") && AgreeOn(a, b, "api_key")
    ensures LLMConfigOf(a) == LLMConfigOf(b)
  {
  }
}
