/**
 * The HTTP adapter: every operation is one JSON-RPC 2.0 call, POSTed to the
 * server's `/jsonrpc` endpoint. JSON encoding and decoding and the HTTP
 * exchange itself are parameters (a `Transport`); the model fixes what is
 * sent, where, and how the decoded reply becomes a result or an error.
 */
module HttpClient {
  import opened Wrappers
  import opened ClientTypes

  /** A value of a params object: a string, a caller's map passed through, or a list of such maps. */
  datatype Json = JString(s: string) | JObject(fields: Config) | JList(items: seq<Config>)

  type Params = map<string, Json>

  /** The request envelope; `params` is an interface value that may be nil. */
  datatype Envelope = Envelope(jsonrpc: string, methodName: string, params: Option<Params>, id: int)

  /** The keys the envelope marshals to: `params` is tagged omitempty and left out when nil. */
  function EmittedKeys(env: Envelope): set<string> {
    {"jsonrpc", "method", "id"} + (if env.params.Some? then {"params"} else {})
  }

  /** An undecoded JSON text (`json.RawMessage`). */
  datatype RawJson = RawJson(text: string)

  datatype ErrorObject = ErrorObject(code: int, message: string)

  /** The response envelope; a JSON null or a missing member decodes to `None`. */
  datatype RpcResponse = RpcResponse(result: Option<RawJson>, error: Option<ErrorObject>)

  /** JSON marshalling of the envelope, the HTTP POST (URL and body to response body) and response decoding. */
  datatype Transport = Transport(
    marshal: Envelope -> Result<seq<byte>, Error>,
    post: (string, seq<byte>) -> Result<seq<byte>, Error>,
    decode: seq<byte> -> Result<RpcResponse, Error>)

  /** The client's settings; the HTTP timeout and the per-call timeout are in seconds. */
  datatype HTTPClient = HTTPClient(baseUrl: string, httpTimeoutSeconds: nat, timeoutSeconds: nat)

  function NewHTTP(baseUrl: string): (c: HTTPClient)
    ensures c.baseUrl == baseUrl && c.httpTimeoutSeconds == 10 && c.timeoutSeconds == 5
  {
    HTTPClient(baseUrl, 10, 5)
  }

  /** There is nothing to release: closing always succeeds and may be repeated. */
  function Close(c: HTTPClient): (err: Option<Error>)
    ensures err.None?
  {
    None
  }

  /** The single URL every call is posted to. */
  function Endpoint(c: HTTPClient): string {
    c.baseUrl + "/jsonrpc"
  }

  // ---------------------------------------------------------------------
  // One JSON-RPC call.
  // ---------------------------------------------------------------------

  function EnvelopeFor(methodName: string, params: Option<Params>): Envelope {
    Envelope("2.0", methodName, params, 1)
  }

  /**
   * A decoded response: an error object wins and carries its code and message;
   * otherwise the result is decoded only when both it and the destination are
   * present, and the destination keeps its zero value when either is absent.
   */
  function Settle<R>(resp: RpcResponse, unmarshal: Option<RawJson -> Result<R, Error>>, zero: R): (r: Result<R, Error>)
    ensures resp.error.Some? ==> r == Failure(RpcError(resp.error.value.code, resp.error.value.message))
    ensures resp.error.None? && (resp.result.None? || unmarshal.None?) ==> r == Success(zero)
    ensures resp.error.None? && resp.result.Some? && unmarshal.Some? ==>
      var decoded := unmarshal.value(resp.result.value);
      (decoded.Success? ==> r == Success(decoded.value)) &&
      (decoded.Failure? ==> r == Failure(Wrapped("failed to unmarshal result", decoded.error)))
  {
    if resp.error.Some? then
      Failure(RpcError(resp.error.value.code, resp.error.value.message))
    else if resp.result.Some? && unmarshal.Some? then
      match unmarshal.value(resp.result.value)
      case Failure(e) => Failure(Wrapped("failed to unmarshal result", e))
      case Success(v) => Success(v)
    else
      Success(zero)
  }

  /** `callJSONRPC`: marshal, post, decode, settle; each transport failure is wrapped with its stage. */
  function CallJsonRpc<R>(c: HTTPClient, t: Transport, methodName: string, params: Option<Params>,
                          unmarshal: Option<RawJson -> Result<R, Error>>, zero: R): (r: Result<R, Error>)
    ensures t.marshal(EnvelopeFor(methodName, params)).Failure? ==>
      r == Failure(Wrapped("failed to marshal request", t.marshal(EnvelopeFor(methodName, params)).error))
    ensures t.marshal(EnvelopeFor(methodName, params)).Success? ==>
      var body := t.marshal(EnvelopeFor(methodName, params)).value;
      var reply := t.post(c.baseUrl + "/jsonrpc", body);
      (reply.Failure? ==> r == Failure(Wrapped("http request failed", reply.error))) &&
      (reply.Success? && t.decode(reply.value).Failure? ==>
         r == Failure(Wrapped("failed to decode response", t.decode(reply.value).error))) &&
      (reply.Success? && t.decode(reply.value).Success? ==> r == Settle(t.decode(reply.value).value, unmarshal, zero))
  {
    var body :- Stage(t.marshal(EnvelopeFor(methodName, params)), "failed to marshal request");
    var replyBody :- Stage(t.post(Endpoint(c), body), "http request failed");
    var resp :- Stage(t.decode(replyBody), "failed to decode response");
    Settle(resp, unmarshal, zero)
  }

  /** A transport stage's failure, wrapped with the stage's context. */
  function Stage<T>(outcome: Result<T, Error>, context: string): Result<T, Error> {
    match outcome
    case Failure(e) => Failure(Wrapped(context, e))
    case Success(v) => Success(v)
  }

  // ---------------------------------------------------------------------
  // Properties of one call.
  // ---------------------------------------------------------------------

  /** Every envelope is version "2.0" with id 1, and its params are sent exactly when they are not nil. */
  lemma EnvelopeConstants(methodName: string, params: Option<Params>)
    ensures EnvelopeFor(methodName, params).jsonrpc == "2.0" && EnvelopeFor(methodName, params).id == 1
    ensures EnvelopeFor(methodName, params).methodName == methodName
    ensures "params" in EmittedKeys(EnvelopeFor(methodName, params)) <==> params.Some?
  {
  }

  /**
   * The transport is consulted at one point only: two transports that marshal
   * the envelope alike, answer the POST of that body to the base URL followed
   * by "/jsonrpc" alike and decode that answer alike give the same outcome.
   * No other URL or body is ever posted, and when marshalling fails nothing is.
   */
  lemma PostsOnlyToEndpoint<R>(c: HTTPClient, t1: Transport, t2: Transport, methodName: string, params: Option<Params>,
                               unmarshal: Option<RawJson -> Result<R, Error>>, zero: R)
    requires t1.marshal(EnvelopeFor(methodName, params)) == t2.marshal(EnvelopeFor(methodName, params))
    requires t1.marshal(EnvelopeFor(methodName, params)).Success? ==>
      var body := t1.marshal(EnvelopeFor(methodName, params)).value;
      t1.post(c.baseUrl + "/jsonrpc", body) == t2.post(c.baseUrl + "/jsonrpc", body) &&
      (t1.post(c.baseUrl + "/jsonrpc", body).Success? ==>
         t1.decode(t1.post(c.baseUrl + "/jsonrpc", body).value) == t2.decode(t1.post(c.baseUrl + "/jsonrpc", body).value))
    ensures CallJsonRpc(c, t1, methodName, params, unmarshal, zero) == CallJsonRpc(c, t2, methodName, params, unmarshal, zero)
  {
  }

  /** An error object short-circuits: the result member is never decoded, whatever the decoder does. */
  lemma ErrorIgnoresDecoder<R>(resp: RpcResponse, u1: RawJson -> Result<R, Error>, u2: RawJson -> Result<R, Error>, zero: R)
    requires resp.error.Some?
    ensures Settle(resp, Some(u1), zero) == Settle(resp, Some(u2), zero) == Settle(resp, None, zero)
    ensures Settle(resp, Some(u1), zero).Failure? && Settle(resp, Some(u1), zero).error.RpcError?
  {
  }

  /** A null result is not decoded: the call succeeds with the destination's zero value. */
  lemma NullResultIgnoresDecoder<R>(resp: RpcResponse, u: RawJson -> Result<R, Error>, zero: R)
    requires resp.error.None? && resp.result.None?
    ensures Settle(resp, Some(u), zero) == Success(zero)
  {
  }

  /** Each transport stage wraps its own failure with its context and passes a success through unchanged. */
  lemma ErrorFromStage<T>(outcome: Result<T, Error>, context: string)
    ensures Stage(outcome, context).Success? <==> outcome.Success?
    ensures outcome.Failure? ==> Stage(outcome, context).error == Wrapped(context, outcome.error)
  {
  }

  // ---------------------------------------------------------------------
  // Methods and params.
  // ---------------------------------------------------------------------

  /** An operation with its arguments, as the HTTP adapter receives them. */
  datatype Call =
    | PingCall
    | ValidateConfigCall(tomlContent: string)
    | LoadConfigCall(configPath: string)
    | GetMetadataCall
    | CreateDataSourceCall(name: string, config: Config)
    | QueryDataSourceCall(name: string, query: string)
    | ExecuteDataSourceCall(name: string, query: string)
    | InsertDataSourceCall(name: string, data: Config)
    | PingDataSourceCall(name: string)
    | CloseDataSourceCall(name: string)
    | CreateLLMCall(name: string, config: Config)
    | GenerateLLMCall(name: string, prompt: string)
    | ChatLLMCall(name: string, messages: seq<Config>)
    | EmbeddingLLMCall(name: string, text: string)
    | PingLLMCall(name: string)
    | CloseLLMCall(name: string)

  function OperationOf(call: Call): Operation {
    match call
    case PingCall => Operation.Ping
    case ValidateConfigCall(_) => Operation.ValidateConfig
    case LoadConfigCall(_) => Operation.LoadConfig
    case GetMetadataCall => Operation.GetMetadata
    case CreateDataSourceCall(_, _) => Operation.CreateDataSource
    case QueryDataSourceCall(_, _) => Operation.QueryDataSource
    case ExecuteDataSourceCall(_, _) => Operation.ExecuteDataSource
    case InsertDataSourceCall(_, _) => Operation.InsertDataSource
    case PingDataSourceCall(_) => Operation.PingDataSource
    case CloseDataSourceCall(_) => Operation.CloseDataSource
    case CreateLLMCall(_, _) => Operation.CreateLLM
    case GenerateLLMCall(_, _) => Operation.GenerateLLM
    case ChatLLMCall(_, _) => Operation.ChatLLM
    case EmbeddingLLMCall(_, _) => Operation.EmbeddingLLM
    case PingLLMCall(_) => Operation.PingLLM
    case CloseLLMCall(_) => Operation.CloseLLM
  }

  /** The JSON-RPC method name of each operation. */
  function MethodName(op: Operation): (s: string)
    ensures OperationNamed(s) == Some(op)
  {
    match op
    case Ping => "ping"
    case ValidateConfig => "validate_config"
    case LoadConfig => "load_config"
    case GetMetadata => "get_metadata"
    case CreateDataSource => "datasource.create"
    case QueryDataSource => "datasource.query"
    case ExecuteDataSource => "datasource.execute"
    case InsertDataSource => "datasource.insert"
    case PingDataSource => "datasource.ping"
    case CloseDataSource => "datasource.close"
    case CreateLLM => "llm.create"
    case GenerateLLM => "llm.generate"
    case ChatLLM => "llm.chat"
    case EmbeddingLLM => "llm.embedding"
    case PingLLM => "llm.ping"
    case CloseLLM => "llm.close"
  }

  /** The operation a method name stands for, as a server dispatches it. */
  function OperationNamed(methodName: string): Option<Operation> {
    if methodName == "ping" then Some(Operation.Ping)
    else if methodName == "validate_config" then Some(Operation.ValidateConfig)
    else if methodName == "load_config" then Some(Operation.LoadConfig)
    else if methodName == "get_metadata" then Some(Operation.GetMetadata)
    else if methodName == "datasource.create" then Some(Operation.CreateDataSource)
    else if methodName == "datasource.query" then Some(Operation.QueryDataSource)
    else if methodName == "datasource.execute" then Some(Operation.ExecuteDataSource)
    else if methodName == "datasource.insert" then Some(Operation.InsertDataSource)
    else if methodName == "datasource.ping" then Some(Operation.PingDataSource)
    else if methodName == "datasource.close" then Some(Operation.CloseDataSource)
    else if methodName == "llm.create" then Some(Operation.CreateLLM)
    else if methodName == "llm.generate" then Some(Operation.GenerateLLM)
    else if methodName == "llm.chat" then Some(Operation.ChatLLM)
    else if methodName == "llm.embedding" then Some(Operation.EmbeddingLLM)
    else if methodName == "llm.ping" then Some(Operation.PingLLM)
    else if methodName == "llm.close" then Some(Operation.CloseLLM)
    else None
  }

  /** A name that dispatches to an operation is that operation's own name. */
  lemma DispatchedNamesAreCanonical(methodName: string)
    requires OperationNamed(methodName).Some?
    ensures MethodName(OperationNamed(methodName).value) == methodName
  {
    if methodName == "ping" {
    } else if methodName == "validate_config" {
    } else if methodName == "load_config" {
    } else if methodName == "get_metadata" {
    } else if methodName == "datasource.create" {
    } else if methodName == "datasource.query" {
    } else if methodName == "datasource.execute" {
    } else if methodName == "datasource.insert" {
    } else if methodName == "datasource.ping" {
    } else if methodName == "datasource.close" {
    } else if methodName == "llm.create" {
    } else if methodName == "llm.generate" {
    } else if methodName == "llm.chat" {
    } else if methodName == "llm.embedding" {
    } else if methodName == "llm.ping" {
    } else if methodName == "llm.close" {
    }
  }

  /** Method names and operations are in one-to-one correspondence. */
  lemma MethodNamesRoundTrip(op: Operation, methodName: string)
    ensures OperationNamed(MethodName(op)) == Some(op)
    ensures OperationNamed(methodName).Some? ==> MethodName(OperationNamed(methodName).value) == methodName
  {
    if OperationNamed(methodName).Some? {
      DispatchedNamesAreCanonical(methodName);
    }
  }

  /** The params object of each call; Ping and GetMetadata send none. */
  function ParamsOf(call: Call): (r: Option<Params>)
    ensures r.None? <==> call.PingCall? || call.GetMetadataCall?
    ensures call.ValidateConfigCall? ==> r == Some(map["config_toml" := JString(call.tomlContent)])
    ensures call.LoadConfigCall? ==> r == Some(map["config_path" := JString(call.configPath)])
    ensures r.Some? && !call.ValidateConfigCall? && !call.LoadConfigCall? ==>
      "name" in r.value && r.value["name"] == JString(call.name)
    ensures call.QueryDataSourceCall? || call.ExecuteDataSourceCall? ==>
      r == Some(map["name" := JString(call.name), "query" := JString(call.query)])
    ensures call.GenerateLLMCall? ==> r == Some(map["name" := JString(call.name), "prompt" := JString(call.prompt)])
    ensures call.EmbeddingLLMCall? ==> r == Some(map["name" := JString(call.name), "text" := JString(call.text)])
    ensures call.PingDataSourceCall? || call.CloseDataSourceCall? || call.PingLLMCall? || call.CloseLLMCall? ==>
      r == Some(map["name" := JString(call.name)])
  {
    match call
    case PingCall => None
    case ValidateConfigCall(toml) => Some(map["config_toml" := JString(toml)])
    case LoadConfigCall(path) => Some(map["config_path" := JString(path)])
    case GetMetadataCall => None
    case CreateDataSourceCall(name, config) => Some(map["name" := JString(name), "config" := JObject(config)])
    case QueryDataSourceCall(name, query) => Some(map["name" := JString(name), "query" := JString(query)])
    case ExecuteDataSourceCall(name, query) => Some(map["name" := JString(name), "query" := JString(query)])
    case InsertDataSourceCall(name, data) => Some(map["name" := JString(name), "data" := JObject(data)])
    case PingDataSourceCall(name) => Some(map["name" := JString(name)])
    case CloseDataSourceCall(name) => Some(map["name" := JString(name)])
    case CreateLLMCall(name, config) => Some(map["name" := JString(name), "config" := JObject(config)])
    case GenerateLLMCall(name, prompt) => Some(map["name" := JString(name), "prompt" := JString(prompt)])
    case ChatLLMCall(name, messages) => Some(map["name" := JString(name), "messages" := JList(messages)])
    case EmbeddingLLMCall(name, text) => Some(map["name" := JString(name), "text" := JString(text)])
    case PingLLMCall(name) => Some(map["name" := JString(name)])
    case CloseLLMCall(name) => Some(map["name" := JString(name)])
  }

  /** The envelope a call sends. */
  function EnvelopeOf(call: Call): Envelope {
    EnvelopeFor(MethodName(OperationOf(call)), ParamsOf(call))
  }

  /** The params member is omitted for exactly the two calls without arguments. */
  lemma ParamsOmittedExactly(call: Call)
    ensures "params" !in EmittedKeys(EnvelopeOf(call)) <==> call == PingCall || call == GetMetadataCall
  {
  }

  /**
   * Configurations, insert data and message histories are forwarded as the
   * caller gave them, with no descriptor building and no conversion.
   */
  lemma ForwardsUnchanged(call: Call)
    ensures call.CreateDataSourceCall? || call.CreateLLMCall? ==>
      ParamsOf(call) == Some(map["name" := JString(call.name), "config" := JObject(call.config)])
    ensures call.InsertDataSourceCall? ==> ParamsOf(call).value["data"] == JObject(call.data)
    ensures call.ChatLLMCall? ==> ParamsOf(call).value["messages"] == JList(call.messages)
  {
  }

  /** One operation's call: its envelope through `callJSONRPC`, always with a destination. */
  function Invoke<R>(c: HTTPClient, t: Transport, call: Call, unmarshal: RawJson -> Result<R, Error>, zero: R): Result<R, Error> {
    CallJsonRpc(c, t, MethodName(OperationOf(call)), ParamsOf(call), Some(unmarshal), zero)
  }

  // ---------------------------------------------------------------------
  // Result structures and operations.
  // ---------------------------------------------------------------------

  datatype ValidateResult = ValidateResult(valid: bool, errors: seq<string>)
  datatype LoadConfigResult = LoadConfigResult(success: bool, message: string, operatorName: string)
  datatype MetadataResult = MetadataResult(name: string, version: string, description: string)
  datatype StatusResult = StatusResult(success: bool, message: string)
  datatype RowsResult = RowsResult(success: bool, rows: seq<map<string, Cell>>, message: string)
  datatype TextResult = TextResult(success: bool, text: string, message: string)
  datatype EmbeddingResult = EmbeddingResult(success: bool, embedding: seq<Float64>, message: string)

  const ZeroStatusResult := StatusResult(false, "")
  const ZeroMetadataResult := MetadataResult("", "", "")
  const ZeroLoadConfigResult := LoadConfigResult(false, "", "")

  /** A Go map lookup: the zero string for a missing key. */
  function Lookup(m: map<string, string>, key: string): string {
    if key in m then m[key] else ""
  }

  /** Status and version are read from the result object; a missing one is empty. */
  function Ping(c: HTTPClient, t: Transport, unmarshal: RawJson -> Result<map<string, string>, Error>): (r: Result<PingResponse, Error>)
    ensures var res := Invoke(c, t, PingCall, unmarshal, map[]);
      (r.Success? <==> res.Success?) && (res.Failure? ==> r.error == res.error) &&
      (res.Success? ==>
        (r.value.status == if "status" in res.value then res.value["status"] else "") &&
        (r.value.version == if "version" in res.value then res.value["version"] else ""))
  {
    var result :- Invoke(c, t, PingCall, unmarshal, map[]);
    Success(PingResponse(Lookup(result, "status"), Lookup(result, "version")))
  }

  function ValidateConfig(c: HTTPClient, t: Transport, tomlContent: string,
                          unmarshal: RawJson -> Result<ValidateResult, Error>): (r: Result<ValidateConfigResponse, Error>)
    ensures var res := Invoke(c, t, ValidateConfigCall(tomlContent), unmarshal, ValidateResult(false, []));
      (r.Success? <==> res.Success?) && (res.Failure? ==> r.error == res.error) &&
      (res.Success? ==> r.value == ValidateConfigResponse(res.value.valid, res.value.errors))
  {
    var result :- Invoke(c, t, ValidateConfigCall(tomlContent), unmarshal, ValidateResult(false, []));
    Success(ValidateConfigResponse(result.valid, result.errors))
  }

  /** The result's `message` member is what the response reports as its error. */
  function LoadConfig(c: HTTPClient, t: Transport, configPath: string,
                      unmarshal: RawJson -> Result<LoadConfigResult, Error>): (r: Result<LoadConfigResponse, Error>)
    ensures var res := Invoke(c, t, LoadConfigCall(configPath), unmarshal, ZeroLoadConfigResult);
      (r.Success? <==> res.Success?) && (res.Failure? ==> r.error == res.error) &&
      (res.Success? ==>
        r.value.error == res.value.message && r.value.success == res.value.success &&
        r.value.operatorName == res.value.operatorName)
  {
    var result :- Invoke(c, t, LoadConfigCall(configPath), unmarshal, ZeroLoadConfigResult);
    Success(LoadConfigResponse(result.success, result.operatorName, result.message))
  }

  /** Unlike the protobuf adapters, a missing result is not an error: the metadata is empty. */
  function GetMetadata(c: HTTPClient, t: Transport, unmarshal: RawJson -> Result<MetadataResult, Error>): (r: Result<MetadataResponse, Error>)
    ensures var res := Invoke(c, t, GetMetadataCall, unmarshal, ZeroMetadataResult);
      (r.Success? <==> res.Success?) && (res.Failure? ==> r.error == res.error) &&
      (res.Success? ==> r.value == MetadataResponse(res.value.name, res.value.version, res.value.description))
  {
    var result :- Invoke(c, t, GetMetadataCall, unmarshal, ZeroMetadataResult);
    Success(MetadataResponse(result.name, result.version, result.description))
  }

  /** The two status-shaped results become a datasource response. */
  function DataSourceOf(result: StatusResult): DataSourceResponse {
    DataSourceResponse(result.success, result.message)
  }

  function LLMOf(result: StatusResult): LLMResponse {
    LLMResponse(result.success, result.message)
  }

  function CreateDataSource(c: HTTPClient, t: Transport, name: string, config: Config,
                            unmarshal: RawJson -> Result<StatusResult, Error>): (r: Result<DataSourceResponse, Error>)
    ensures var res := Invoke(c, t, CreateDataSourceCall(name, config), unmarshal, ZeroStatusResult);
      (r.Success? <==> res.Success?) && (res.Failure? ==> r.error == res.error) &&
      (res.Success? ==> r.value == DataSourceResponse(res.value.success, res.value.message))
  {
    var result :- Invoke(c, t, CreateDataSourceCall(name, config), unmarshal, ZeroStatusResult);
    Success(DataSourceOf(result))
  }

  /** The rows are the decoded JSON rows, as they came. */
  function QueryDataSource(c: HTTPClient, t: Transport, name: string, query: string,
                           unmarshal: RawJson -> Result<RowsResult, Error>): (r: Result<DataSourceQueryResponse, Error>)
    ensures var res := Invoke(c, t, QueryDataSourceCall(name, query), unmarshal, RowsResult(false, [], ""));
      (r.Success? <==> res.Success?) && (res.Failure? ==> r.error == res.error) &&
      (res.Success? ==> r.value == DataSourceQueryResponse(res.value.success, res.value.rows, res.value.message))
  {
    var result :- Invoke(c, t, QueryDataSourceCall(name, query), unmarshal, RowsResult(false, [], ""));
    Success(DataSourceQueryResponse(result.success, result.rows, result.message))
  }

  function ExecuteDataSource(c: HTTPClient, t: Transport, name: string, query: string,
                             unmarshal: RawJson -> Result<StatusResult, Error>): (r: Result<DataSourceResponse, Error>)
    ensures var res := Invoke(c, t, ExecuteDataSourceCall(name, query), unmarshal, ZeroStatusResult);
      (r.Success? <==> res.Success?) && (res.Failure? ==> r.error == res.error) &&
      (res.Success? ==> r.value == DataSourceResponse(res.value.success, res.value.message))
  {
    var result :- Invoke(c, t, ExecuteDataSourceCall(name, query), unmarshal, ZeroStatusResult);
    Success(DataSourceOf(result))
  }

  function InsertDataSource(c: HTTPClient, t: Transport, name: string, data: Config,
                            unmarshal: RawJson -> Result<StatusResult, Error>): (r: Result<DataSourceResponse, Error>)
    ensures var res := Invoke(c, t, InsertDataSourceCall(name, data), unmarshal, ZeroStatusResult);
      (r.Success? <==> res.Success?) && (res.Failure? ==> r.error == res.error) &&
      (res.Success? ==> r.value == DataSourceResponse(res.value.success, res.value.message))
  {
    var result :- Invoke(c, t, InsertDataSourceCall(name, data), unmarshal, ZeroStatusResult);
    Success(DataSourceOf(result))
  }

  function PingDataSource(c: HTTPClient, t: Transport, name: string,
                          unmarshal: RawJson -> Result<StatusResult, Error>): (r: Result<DataSourceResponse, Error>)
    ensures var res := Invoke(c, t, PingDataSourceCall(name), unmarshal, ZeroStatusResult);
      (r.Success? <==> res.Success?) && (res.Failure? ==> r.error == res.error) &&
      (res.Success? ==> r.value == DataSourceResponse(res.value.success, res.value.message))
  {
    var result :- Invoke(c, t, PingDataSourceCall(name), unmarshal, ZeroStatusResult);
    Success(DataSourceOf(result))
  }

  function CloseDataSource(c: HTTPClient, t: Transport, name: string,
                           unmarshal: RawJson -> Result<StatusResult, Error>): (r: Result<DataSourceResponse, Error>)
    ensures var res := Invoke(c, t, CloseDataSourceCall(name), unmarshal, ZeroStatusResult);
      (r.Success? <==> res.Success?) && (res.Failure? ==> r.error == res.error) &&
      (res.Success? ==> r.value == DataSourceResponse(res.value.success, res.value.message))
  {
    var result :- Invoke(c, t, CloseDataSourceCall(name), unmarshal, ZeroStatusResult);
    Success(DataSourceOf(result))
  }

  function CreateLLM(c: HTTPClient, t: Transport, name: string, config: Config,
                     unmarshal: RawJson -> Result<StatusResult, Error>): (r: Result<LLMResponse, Error>)
    ensures var res := Invoke(c, t, CreateLLMCall(name, config), unmarshal, ZeroStatusResult);
      (r.Success? <==> res.Success?) && (res.Failure? ==> r.error == res.error) &&
      (res.Success? ==> r.value == LLMResponse(res.value.success, res.value.message))
  {
    var result :- Invoke(c, t, CreateLLMCall(name, config), unmarshal, ZeroStatusResult);
    Success(LLMOf(result))
  }

  function GenerateLLM(c: HTTPClient, t: Transport, name: string, prompt: string,
                       unmarshal: RawJson -> Result<TextResult, Error>): (r: Result<LLMGenerateResponse, Error>)
    ensures var res := Invoke(c, t, GenerateLLMCall(name, prompt), unmarshal, TextResult(false, "", ""));
      (r.Success? <==> res.Success?) && (res.Failure? ==> r.error == res.error) &&
      (res.Success? ==> r.value == LLMGenerateResponse(res.value.success, res.value.text, res.value.message))
  {
    var result :- Invoke(c, t, GenerateLLMCall(name, prompt), unmarshal, TextResult(false, "", ""));
    Success(LLMGenerateResponse(result.success, result.text, result.message))
  }

  function ChatLLM(c: HTTPClient, t: Transport, name: string, messages: seq<Config>,
                   unmarshal: RawJson -> Result<TextResult, Error>): (r: Result<LLMGenerateResponse, Error>)
    ensures var res := Invoke(c, t, ChatLLMCall(name, messages), unmarshal, TextResult(false, "", ""));
      (r.Success? <==> res.Success?) && (res.Failure? ==> r.error == res.error) &&
      (res.Success? ==> r.value == LLMGenerateResponse(res.value.success, res.value.text, res.value.message))
  {
    var result :- Invoke(c, t, ChatLLMCall(name, messages), unmarshal, TextResult(false, "", ""));
    Success(LLMGenerateResponse(result.success, result.text, result.message))
  }

  function EmbeddingLLM(c: HTTPClient, t: Transport, name: string, text: string,
                        unmarshal: RawJson -> Result<EmbeddingResult, Error>): (r: Result<LLMEmbeddingResponse, Error>)
    ensures var res := Invoke(c, t, EmbeddingLLMCall(name, text), unmarshal, EmbeddingResult(false, [], ""));
      (r.Success? <==> res.Success?) && (res.Failure? ==> r.error == res.error) &&
      (res.Success? ==> r.value == LLMEmbeddingResponse(res.value.success, res.value.embedding, res.value.message))
  {
    var result :- Invoke(c, t, EmbeddingLLMCall(name, text), unmarshal, EmbeddingResult(false, [], ""));
    Success(LLMEmbeddingResponse(result.success, result.embedding, result.message))
  }

  /** Unlike the protobuf adapters, the HTTP result's own success flag is reported. */
  function PingLLM(c: HTTPClient, t: Transport, name: string,
                   unmarshal: RawJson -> Result<StatusResult, Error>): (r: Result<LLMResponse, Error>)
    ensures var res := Invoke(c, t, PingLLMCall(name), unmarshal, ZeroStatusResult);
      (r.Success? <==> res.Success?) && (res.Failure? ==> r.error == res.error) &&
      (res.Success? ==> r.value == LLMResponse(res.value.success, res.value.message))
  {
    var result :- Invoke(c, t, PingLLMCall(name), unmarshal, ZeroStatusResult);
    Success(LLMOf(result))
  }

  function CloseLLM(c: HTTPClient, t: Transport, name: string,
                    unmarshal: RawJson -> Result<StatusResult, Error>): (r: Result<LLMResponse, Error>)
    ensures var res := Invoke(c, t, CloseLLMCall(name), unmarshal, ZeroStatusResult);
      (r.Success? <==> res.Success?) && (res.Failure? ==> r.error == res.error) &&
      (res.Success? ==> r.value == LLMResponse(res.value.success, res.value.message))
  {
    var result :- Invoke(c, t, CloseLLMCall(name), unmarshal, ZeroStatusResult);
    Success(LLMOf(result))
  }

  // ---------------------------------------------------------------------
  // Properties across operations.
  // ---------------------------------------------------------------------

  /** LoadConfig reports the result's `message` as its error, whatever else the result holds. */
  lemma LoadConfigCopiesMessage(c: HTTPClient, t: Transport, configPath: string,
                                unmarshal: RawJson -> Result<LoadConfigResult, Error>)
    requires Invoke(c, t, LoadConfigCall(configPath), unmarshal, ZeroLoadConfigResult).Success?
    ensures LoadConfig(c, t, configPath, unmarshal).Success?
    ensures LoadConfig(c, t, configPath, unmarshal).value.error ==
            Invoke(c, t, LoadConfigCall(configPath), unmarshal, ZeroLoadConfigResult).value.message
  {
  }

  /** A response whose result is null and carries no error yields empty metadata, not an error. */
  lemma GetMetadataZeroOnNull(c: HTTPClient, t: Transport, unmarshal: RawJson -> Result<MetadataResult, Error>)
    requires t.marshal(EnvelopeOf(GetMetadataCall)).Success?
    requires t.post(Endpoint(c), t.marshal(EnvelopeOf(GetMetadataCall)).value).Success?
    requires t.decode(t.post(Endpoint(c), t.marshal(EnvelopeOf(GetMetadataCall)).value).value) == Success(RpcResponse(None, None))
    ensures GetMetadata(c, t, unmarshal) == Success(MetadataResponse("", "", ""))
  {
  }
}
