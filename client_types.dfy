/**
 * The transport-neutral types of the client interface: the loosely typed
 * values callers pass in configuration maps, the errors the adapters return,
 * the list of operations and the response structures every adapter fills.
 */
module ClientTypes {
  import opened Proto

  /**
   * A Go `interface{}` as found in a configuration or data map: a string; a
   * float64 number, as JSON decoding yields every number (here only integral
   * ones); a Go `int`, as an integer literal in a Go map literal yields; or
   * anything else, kept as the text `%v` prints for it. A `float64` type
   * assertion accepts `Num` only.
   */
  datatype Val = Str(s: string) | Num(n: int) | GoInt(i: int) | Other(shown: string)

  /** A byte of a marshalled message or an HTTP body. */
  type byte = bv8

  /** A configuration payload (`map[string]interface{}`). */
  type Config = map<string, Val>

  /** A query-result cell: a decoded JSON value (HTTP) or a protobuf value (gRPC). */
  datatype Cell = JsonCell(json: Val) | ProtoCell(proto: Value)

  /** A 64-bit float, kept opaque: either the exact widening of a 32-bit one or raw bits. */
  datatype Float64 = Widened(narrow: Float32) | Float64Bits(bits: bv64)

  /**
   * A Go error. `Wrapped` is `fmt.Errorf("<context>: %w", cause)`; `RpcError`
   * is the HTTP adapter's error that carries a JSON-RPC error code.
   */
  datatype Error =
    | Message(text: string)
    | Wrapped(context: string, cause: Error)
    | RpcError(code: int, message: string)

  /** The operations of the client interface. */
  datatype Operation =
    | Ping
    | ValidateConfig
    | LoadConfig
    | GetMetadata
    | CreateDataSource
    | QueryDataSource
    | ExecuteDataSource
    | InsertDataSource
    | PingDataSource
    | CloseDataSource
    | CreateLLM
    | GenerateLLM
    | ChatLLM
    | EmbeddingLLM
    | PingLLM
    | CloseLLM

  // The response structures shared by all adapters.

  datatype PingResponse = PingResponse(status: string, version: string)

  datatype ValidateConfigResponse = ValidateConfigResponse(valid: bool, errors: seq<string>)

  datatype LoadConfigResponse = LoadConfigResponse(success: bool, operatorName: string, error: string)

  datatype MetadataResponse = MetadataResponse(name: string, version: string, description: string)

  datatype DataSourceResponse = DataSourceResponse(success: bool, message: string)

  datatype DataSourceQueryResponse = DataSourceQueryResponse(success: bool, rows: seq<map<string, Cell>>, message: string)

  datatype LLMResponse = LLMResponse(success: bool, message: string)

  datatype LLMGenerateResponse = LLMGenerateResponse(success: bool, text: string, message: string)

  datatype LLMEmbeddingResponse = LLMEmbeddingResponse(success: bool, embedding: seq<Float64>, message: string)
}
