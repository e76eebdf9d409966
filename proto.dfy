/**
 * The protobuf schema shared by the gRPC and the FFI adapters: the enums, the
 * request messages and the reply messages. The generated code is not part of
 * this model; only the fields the adapters read or write are represented.
 */
module Proto {
  import opened Wrappers

  datatype DataSourceType =
    | DataSourceTypeUnspecified
    | PostgreSql
    | MySql
    | Redis
    | MongoDb
    | Kafka

  datatype LLMProvider =
    | ProviderUnspecified
    | OpenAI
    | Ollama
    | Anthropic
    | LocalProvider

  datatype MessageRole =
    | RoleUnspecified
    | SystemRole
    | UserRole
    | AssistantRole

  /** A datasource descriptor: type tag, connection URL and extra string parameters. */
  datatype DataSourceConfig = DataSourceConfig(kind: DataSourceType, url: string, extra: map<string, string>)

  /** An LLM descriptor; the API key is an optional field of the message. */
  datatype LLMConfig = LLMConfig(provider: LLMProvider, model: string, apiKey: Option<string>)

  datatype LLMMessage = LLMMessage(role: MessageRole, content: string)

  /** A typed column value; the adapters only ever build the string case. */
  datatype Value = StringValue(stringValue: string) | NonStringValue(kind: string)

  datatype Row = Row(columns: map<string, Value>)

  /** A 32-bit float, kept opaque. */
  datatype Float32 = Float32(bits: bv32)

  datatype Metadata = Metadata(name: string, version: string, description: string)

  /** One request message per service operation. */
  datatype Request =
    | PingRequest
    | ValidateConfigRequest(tomlContent: string)
    | LoadConfigRequest(configPath: string)
    | GetMetadataRequest
    | CreateDataSourceRequest(name: string, config: DataSourceConfig)
    | QueryDataSourceRequest(name: string, query: string)
    | ExecuteDataSourceRequest(name: string, query: string)
    | InsertDataSourceRequest(name: string, table: string, data: Row)
    | PingDataSourceRequest(name: string)
    | CloseDataSourceRequest(name: string)
    | CreateLLMRequest(name: string, llmConfig: LLMConfig)
    | GenerateLLMRequest(name: string, prompt: string)
    | ChatLLMRequest(name: string, messages: seq<LLMMessage>)
    | EmbeddingLLMRequest(name: string, text: string)
    | PingLLMRequest(name: string)
    | CloseLLMRequest(name: string)

  // Reply messages, grouped by shape: the generated schema has one message per
  // operation, but several share exactly these fields.

  datatype PingReply = PingReply(status: string, version: string)

  datatype ValidateConfigReply = ValidateConfigReply(valid: bool, errors: seq<string>)

  datatype LoadConfigReply = LoadConfigReply(success: bool, operatorName: string, error: string)

  datatype GetMetadataReply = GetMetadataReply(metadata: Option<Metadata>)

  /** Success flag and error text (create, execute, insert and close replies). */
  datatype StatusReply = StatusReply(success: bool, error: string)

  /** Health flag and error text (the two ping replies). */
  datatype HealthReply = HealthReply(healthy: bool, error: string)

  datatype QueryReply = QueryReply(success: bool, rows: seq<Row>, error: string)

  datatype TextReply = TextReply(success: bool, text: string, error: string)

  datatype EmbeddingReply = EmbeddingReply(success: bool, embedding: seq<Float32>, error: string)

  // Zero values: what a reply message holds when nothing was decoded into it.

  const ZeroPingReply := PingReply("", "")
  const ZeroValidateConfigReply := ValidateConfigReply(false, [])
  const ZeroLoadConfigReply := LoadConfigReply(false, "", "")
  const ZeroMetadataReply := GetMetadataReply(None)
  const ZeroStatusReply := StatusReply(false, "")
  const ZeroHealthReply := HealthReply(false, "")
  const ZeroQueryReply := QueryReply(false, [], "")
  const ZeroTextReply := TextReply(false, "", "")
  const ZeroEmbeddingReply := EmbeddingReply(false, [], "")
}
