/**
 * The gRPC adapter. Each operation builds its request message, calls the
 * generated stub (a function parameter here: the network is not modelled),
 * wraps a transport error with the operation's context, and copies the reply
 * into the response structure.
 */
module GrpcClient {
  import opened Wrappers
  import opened Proto
  import opened ClientTypes
  import opened Fmt
  import opened Builders
  import opened Replies

  /**
   * A client connection, identified by the address it was dialled at, and
   * whether it has been closed. The connection is shared state: closing it
   * through the client is visible to every later call.
   */
  datatype Conn = Conn(target: string, closed: bool)

  /** The client never reassigns its fields after construction; only its connection's state changes. */
  datatype GrpcClient = GrpcClient(conn: Option<Conn>, timeoutSeconds: nat)

  /** The default per-call timeout, in seconds. */
  const DefaultTimeoutSeconds: nat := 5

  /** Dialling: a failure is wrapped; a success yields a client with the default timeout. */
  function NewGRPC(address: string, dial: string -> Result<Conn, Error>): (r: Result<GrpcClient, Error>)
    ensures r.Success? <==> dial(address).Success?
    ensures dial(address).Failure? ==>
      r.error == Wrapped("failed to connect to gRPC server", dial(address).error)
    ensures dial(address).Success? ==>
      r.value.conn == Some(dial(address).value) && r.value.timeoutSeconds == 5
  {
    match dial(address)
    case Failure(e) => Failure(Wrapped("failed to connect to gRPC server", e))
    case Success(conn) => Success(GrpcClient(Some(conn), DefaultTimeoutSeconds))
  }

  /**
   * Closing reports what closing the connection reports, and nothing without a
   * connection; the connection is then closed. The client keeps it, so closing
   * again hands the library an already-closed connection.
   */
  function Close(client: GrpcClient, closeConn: Conn -> Option<Error>): (r: (Option<Error>, GrpcClient))
    ensures client.conn.None? ==> r.0.None? && r.1 == client
    ensures client.conn.Some? ==>
      r.0 == closeConn(client.conn.value) &&
      r.1 == client.(conn := Some(client.conn.value.(closed := true)))
  {
    if client.conn.Some? then (closeConn(client.conn.value), client.(conn := Some(client.conn.value.(closed := true))))
    else (None, client)
  }

  /**
   * A second close reaches the library again, now with a closed connection: its
   * report is whatever the library gives for that, not a repeat of the first.
   */
  lemma CloseTwice(client: GrpcClient, closeConn: Conn -> Option<Error>)
    requires client.conn.Some? && !client.conn.value.closed
    ensures var (first, closedClient) := Close(client, closeConn);
      var (second, _) := Close(closedClient, closeConn);
      first == closeConn(client.conn.value) &&
      second == closeConn(Conn(client.conn.value.target, true)) &&
      client.conn.value != Conn(client.conn.value.target, true)
  {
  }

  // ---------------------------------------------------------------------
  // Error contexts.
  // ---------------------------------------------------------------------

  /** The text each operation puts in front of a transport error; CreateDataSource puts none. */
  function Context(op: Operation): Option<string> {
    match op
    case Ping => Some("ping failed")
    case ValidateConfig => Some("validate config failed")
    case LoadConfig => Some("load config failed")
    case GetMetadata => Some("get metadata failed")
    case CreateDataSource => None
    case QueryDataSource => Some("query datasource failed")
    case ExecuteDataSource => Some("execute datasource failed")
    case InsertDataSource => Some("insert datasource failed")
    case PingDataSource => Some("ping datasource failed")
    case CloseDataSource => Some("close datasource failed")
    case CreateLLM => Some("create llm failed")
    case GenerateLLM => Some("generate llm failed")
    case ChatLLM => Some("chat llm failed")
    case EmbeddingLLM => Some("embedding llm failed")
    case PingLLM => Some("ping llm failed")
    case CloseLLM => Some("close llm failed")
  }

  /** CreateDataSource alone returns the stub's error bare; every other context names one operation. */
  lemma ContextIdentifiesOperation(a: Operation, b: Operation)
    ensures Context(a).None? <==> a == Operation.CreateDataSource
    ensures Context(a).Some? && Context(a) == Context(b) ==> a == b
  {
  }

  // ---------------------------------------------------------------------
  // Operator operations.
  // ---------------------------------------------------------------------

  function Ping(rpc: Request -> Result<PingReply, Error>): (r: Result<PingResponse, Error>)
    ensures rpc(PingRequest).Failure? ==> r == Failure(Wrapped("ping failed", rpc(PingRequest).error))
    ensures rpc(PingRequest).Success? ==>
      r == Success(PingResponse(rpc(PingRequest).value.status, rpc(PingRequest).value.version))
  {
    Relay(rpc(PingRequest), Context(Operation.Ping).value, PingFrom)
  }

  function ValidateConfig(tomlContent: string, rpc: Request -> Result<ValidateConfigReply, Error>): (r: Result<ValidateConfigResponse, Error>)
    ensures var reply := rpc(ValidateConfigRequest(tomlContent));
      (reply.Failure? ==> r == Failure(Wrapped("validate config failed", reply.error))) &&
      (reply.Success? ==> r == Success(ValidateConfigResponse(reply.value.valid, reply.value.errors)))
  {
    Relay(rpc(ValidateConfigRequest(tomlContent)), Context(Operation.ValidateConfig).value, ValidateConfigFrom)
  }

  function LoadConfig(configPath: string, rpc: Request -> Result<LoadConfigReply, Error>): (r: Result<LoadConfigResponse, Error>)
    ensures var reply := rpc(LoadConfigRequest(configPath));
      (reply.Failure? ==> r == Failure(Wrapped("load config failed", reply.error))) &&
      (reply.Success? ==> r == Success(LoadConfigResponse(reply.value.success, reply.value.operatorName, reply.value.error)))
  {
    Relay(rpc(LoadConfigRequest(configPath)), Context(Operation.LoadConfig).value, LoadConfigFrom)
  }

  /** A transport error is wrapped; a reply without metadata is an error that is not. */
  function GetMetadata(rpc: Request -> Result<GetMetadataReply, Error>): (r: Result<MetadataResponse, Error>)
    ensures var reply := rpc(GetMetadataRequest);
      (reply.Failure? ==> r == Failure(Wrapped("get metadata failed", reply.error))) &&
      (reply.Success? && reply.value.metadata.None? ==> r == Failure(Message("metadata is nil in response"))) &&
      (r.Success? <==> reply.Success? && reply.value.metadata.Some?) &&
      (r.Success? ==> var m := reply.value.metadata.value; r.value == MetadataResponse(m.name, m.version, m.description))
  {
    var reply :- Relay(rpc(GetMetadataRequest), Context(Operation.GetMetadata).value, (x: GetMetadataReply) => x);
    MetadataFrom(reply)
  }

  // ---------------------------------------------------------------------
  // Datasource operations.
  // ---------------------------------------------------------------------

  /**
   * The descriptor built from `config` is sent; a configuration the descriptor
   * builder panics on never reaches the stub, and the stub's error is returned
   * without a context.
   */
  method CreateDataSource(name: string, config: Config, rpc: Request -> Result<StatusReply, Error>)
    returns (r: Assert<Result<DataSourceResponse, Error>>)
    ensures DataSourceDescriptor(config).Panic? ==> r == Panic(DataSourceDescriptor(config).key)
    ensures DataSourceDescriptor(config).Ok? ==>
      var reply := rpc(CreateDataSourceRequest(name, DataSourceDescriptor(config).value));
      (reply.Failure? ==> r == Ok(Failure(reply.error))) &&
      (reply.Success? ==> r == Ok(Success(DataSourceResponse(reply.value.success, reply.value.error))))
  {
    var descriptor :- BuildDataSourceConfig(config);
    r := Ok(Forward(rpc(CreateDataSourceRequest(name, descriptor)), DataSourceFromStatus));
  }

  /** Every column of the protobuf row is kept under its own name, holding the protobuf value. */
  predicate RowCopied(m: map<string, Cell>, row: Row) {
    m.Keys == row.columns.Keys && forall k :: k in m ==> m[k] == ProtoCell(row.columns[k])
  }

  /** The query reply's rows, one map per protobuf row, in order. */
  method ConvertRows(protoRows: seq<Row>) returns (rows: seq<map<string, Cell>>)
    ensures |rows| == |protoRows|
    ensures forall i :: 0 <= i < |protoRows| ==> RowCopied(rows[i], protoRows[i])
  {
    rows := [];
    for i := 0 to |protoRows|
      invariant |rows| == i
      invariant forall j :: 0 <= j < i ==> RowCopied(rows[j], protoRows[j])
    {
      var columns := protoRows[i].columns;
      var rowMap: map<string, Cell> := map[];
      var pending := columns.Keys;
      while pending != {}
        invariant pending <= columns.Keys
        invariant rowMap.Keys == columns.Keys - pending
        invariant forall k :: k in rowMap ==> rowMap[k] == ProtoCell(columns[k])
        decreases pending
      {
        var key :| key in pending;
        rowMap := rowMap[key := ProtoCell(columns[key])];
        pending := pending - {key};
      }
      rows := rows + [rowMap];
    }
  }

  method QueryDataSource(name: string, query: string, rpc: Request -> Result<QueryReply, Error>)
    returns (r: Result<DataSourceQueryResponse, Error>)
    ensures var reply := rpc(QueryDataSourceRequest(name, query));
      (r.Success? <==> reply.Success?) &&
      (reply.Failure? ==> r.error == Wrapped("query datasource failed", reply.error)) &&
      (reply.Success? ==>
        r.value.success == reply.value.success && r.value.message == reply.value.error &&
        |r.value.rows| == |reply.value.rows| &&
        forall i :: 0 <= i < |reply.value.rows| ==> RowCopied(r.value.rows[i], reply.value.rows[i]))
  {
    var reply := rpc(QueryDataSourceRequest(name, query));
    if reply.Failure? {
      return Failure(Wrapped(Context(Operation.QueryDataSource).value, reply.error));
    }
    var rows := ConvertRows(reply.value.rows);
    r := Success(DataSourceQueryResponse(reply.value.success, rows, reply.value.error));
  }

  function ExecuteDataSource(name: string, query: string, rpc: Request -> Result<StatusReply, Error>): (r: Result<DataSourceResponse, Error>)
    ensures var reply := rpc(ExecuteDataSourceRequest(name, query));
      (reply.Failure? ==> r == Failure(Wrapped("execute datasource failed", reply.error))) &&
      (reply.Success? ==> r == Success(DataSourceResponse(reply.value.success, reply.value.error)))
  {
    Relay(rpc(ExecuteDataSourceRequest(name, query)), Context(Operation.ExecuteDataSource).value, DataSourceFromStatus)
  }

  /** The data travels as one row of `%v` texts, with an empty table name. */
  method InsertDataSource(name: string, data: Config, rpc: Request -> Result<StatusReply, Error>)
    returns (r: Result<DataSourceResponse, Error>)
    ensures var reply := rpc(InsertDataSourceRequest(name, "", InsertRow(data)));
      (reply.Failure? ==> r == Failure(Wrapped("insert datasource failed", reply.error))) &&
      (reply.Success? ==> r == Success(DataSourceResponse(reply.value.success, reply.value.error)))
  {
    var row := BuildRow(data);
    r := Relay(rpc(InsertDataSourceRequest(name, "", row)), Context(Operation.InsertDataSource).value, DataSourceFromStatus);
  }

  /** The health flag of the reply is reported as the response's success flag. */
  function PingDataSource(name: string, rpc: Request -> Result<HealthReply, Error>): (r: Result<DataSourceResponse, Error>)
    ensures var reply := rpc(PingDataSourceRequest(name));
      (reply.Failure? ==> r == Failure(Wrapped("ping datasource failed", reply.error))) &&
      (reply.Success? ==> r.Success? && r.value.success == reply.value.healthy && r.value.message == reply.value.error)
  {
    Relay(rpc(PingDataSourceRequest(name)), Context(Operation.PingDataSource).value, DataSourceFromHealth)
  }

  function CloseDataSource(name: string, rpc: Request -> Result<StatusReply, Error>): (r: Result<DataSourceResponse, Error>)
    ensures var reply := rpc(CloseDataSourceRequest(name));
      (reply.Failure? ==> r == Failure(Wrapped("close datasource failed", reply.error))) &&
      (reply.Success? ==> r == Success(DataSourceResponse(reply.value.success, reply.value.error)))
  {
    Relay(rpc(CloseDataSourceRequest(name)), Context(Operation.CloseDataSource).value, DataSourceFromStatus)
  }

  // ---------------------------------------------------------------------
  // LLM operations.
  // ---------------------------------------------------------------------

  /** The LLM descriptor read from `config` is sent. */
  function CreateLLM(name: string, config: Config, rpc: Request -> Result<StatusReply, Error>): (r: Result<LLMResponse, Error>)
    ensures var reply := rpc(CreateLLMRequest(name, LLMConfigOf(config)));
      (reply.Failure? ==> r == Failure(Wrapped("create llm failed", reply.error))) &&
      (reply.Success? ==> r == Success(LLMResponse(reply.value.success, reply.value.error)))
  {
    Relay(rpc(CreateLLMRequest(name, LLMConfigOf(config))), Context(Operation.CreateLLM).value, LLMFromStatus)
  }

  function GenerateLLM(name: string, prompt: string, rpc: Request -> Result<TextReply, Error>): (r: Result<LLMGenerateResponse, Error>)
    ensures var reply := rpc(GenerateLLMRequest(name, prompt));
      (reply.Failure? ==> r == Failure(Wrapped("generate llm failed", reply.error))) &&
      (reply.Success? ==> r == Success(LLMGenerateResponse(reply.value.success, reply.value.text, reply.value.error)))
  {
    Relay(rpc(GenerateLLMRequest(name, prompt)), Context(Operation.GenerateLLM).value, GenerateFrom)
  }

  /** The whole history is sent, converted message by message in order. */
  method ChatLLM(name: string, messages: seq<Config>, rpc: Request -> Result<TextReply, Error>)
    returns (r: Result<LLMGenerateResponse, Error>)
    ensures var reply := rpc(ChatLLMRequest(name, ProtoMessages(messages)));
      (reply.Failure? ==> r == Failure(Wrapped("chat llm failed", reply.error))) &&
      (reply.Success? ==> r == Success(LLMGenerateResponse(reply.value.success, reply.value.text, reply.value.error)))
  {
    var protoMessages := ConvertMessages(messages);
    r := Relay(rpc(ChatLLMRequest(name, protoMessages)), Context(Operation.ChatLLM).value, GenerateFrom);
  }

  /** The embedding comes back with as many components as the reply, each widened. */
  method EmbeddingLLM(name: string, text: string, rpc: Request -> Result<EmbeddingReply, Error>)
    returns (r: Result<LLMEmbeddingResponse, Error>)
    ensures var reply := rpc(EmbeddingLLMRequest(name, text));
      (r.Success? <==> reply.Success?) &&
      (reply.Failure? ==> r.error == Wrapped("embedding llm failed", reply.error)) &&
      (reply.Success? ==>
        r.value.success == reply.value.success && r.value.message == reply.value.error &&
        r.value.embedding == Widen(reply.value.embedding))
  {
    var reply := rpc(EmbeddingLLMRequest(name, text));
    if reply.Failure? {
      return Failure(Wrapped(Context(Operation.EmbeddingLLM).value, reply.error));
    }
    var embedding := WidenAll(reply.value.embedding);
    r := Success(LLMEmbeddingResponse(reply.value.success, embedding, reply.value.error));
  }

  /** The health flag of the reply is reported as the response's success flag. */
  function PingLLM(name: string, rpc: Request -> Result<HealthReply, Error>): (r: Result<LLMResponse, Error>)
    ensures var reply := rpc(PingLLMRequest(name));
      (reply.Failure? ==> r == Failure(Wrapped("ping llm failed", reply.error))) &&
      (reply.Success? ==> r.Success? && r.value.success == reply.value.healthy && r.value.message == reply.value.error)
  {
    Relay(rpc(PingLLMRequest(name)), Context(Operation.PingLLM).value, LLMFromHealth)
  }

  function CloseLLM(name: string, rpc: Request -> Result<StatusReply, Error>): (r: Result<LLMResponse, Error>)
    ensures var reply := rpc(CloseLLMRequest(name));
      (reply.Failure? ==> r == Failure(Wrapped("close llm failed", reply.error))) &&
      (reply.Success? ==> r == Success(LLMResponse(reply.value.success, reply.value.error)))
  {
    Relay(rpc(CloseLLMRequest(name)), Context(Operation.CloseLLM).value, LLMFromStatus)
  }
}
