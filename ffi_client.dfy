/**
 * The FFI adapter: a client holding a handle on a dynamically loaded native
 * library. Every operation marshals its request, hands the bytes to the
 * library's `<name>_proto` entry point, copies the returned buffer, gives the
 * buffer back to the library's `proto_buffer_free`, and unmarshals the copy.
 *
 * The loader, the native functions and the protobuf codec are parameters. A
 * ghost trace records the steps that touch native memory, so that their order
 * can be stated.
 */
module FfiClient {
  import opened Wrappers
  import opened Proto
  import opened ClientTypes
  import opened Builders
  import opened Replies

  /** A handle returned by the dynamic loader. */
  datatype Handle = Handle(id: nat)

  /** The input pointer handed to a native function: NULL, or the first byte of a non-empty buffer. */
  datatype InputPointer = NullPointer | FirstByteOf(bytes: seq<byte>)

  /**
   * A `ProtoBuffer` returned by the library: a NULL data pointer with whatever
   * length the library reported, or data whose length is the reported length.
   */
  datatype ProtoBuffer = NullData(len: nat) | Data(bytes: seq<byte>)

  /** A native `<name>_proto` entry point. */
  type NativeFn = (InputPointer, nat) -> ProtoBuffer

  /**
   * The dynamic loader's view of the library: which entry point a symbol
   * resolves to under a handle (a NULL handle searches the default scope), and
   * whether `proto_buffer_free` resolves.
   */
  datatype Library = Library(lookup: (Option<Handle>, string) -> Option<NativeFn>, hasFree: Option<Handle> -> bool)

  /** Steps of a call or of closing that involve native memory or the loader. */
  datatype Event =
    | Called(symbol: string, input: InputPointer, len: nat)
    | Copied(bytes: seq<byte>)
    | Freed(buffer: ProtoBuffer, released: bool)
    | Decoded(bytes: seq<byte>)
    | Unloaded(handle: Handle)

  // ---------------------------------------------------------------------
  // The buffer protocol, as functions of the inputs.
  // ---------------------------------------------------------------------

  /** The pointer and length passed for the marshalled request: NULL and 0 exactly when it is empty. */
  function InputOf(reqBytes: seq<byte>): (p: (InputPointer, nat))
    ensures p.0.NullPointer? <==> |reqBytes| == 0
    ensures p.1 == |reqBytes|
    ensures p.0.FirstByteOf? ==> p.0.bytes == reqBytes
  {
    if |reqBytes| > 0 then (FirstByteOf(reqBytes), |reqBytes|) else (NullPointer, 0)
  }

  /** The C helper: an unresolved symbol yields `{NULL, 0}` instead of a call. */
  function CallSymbol(lib: Library, handle: Option<Handle>, symbol: string, input: InputPointer, len: nat): (out: ProtoBuffer)
    ensures lib.lookup(handle, symbol).None? ==> out == NullData(0)
    ensures lib.lookup(handle, symbol).Some? ==> out == lib.lookup(handle, symbol).value(input, len)
  {
    match lib.lookup(handle, symbol)
    case None => NullData(0)
    case Some(f) => f(input, len)
  }

  /** A NULL data pointer with a positive length. */
  predicate NullWithLength(out: ProtoBuffer) {
    out.NullData? && out.len > 0
  }

  /** What is copied out of the buffer before it is freed: its data, when there is any. */
  function CopyOut(out: ProtoBuffer): seq<byte> {
    if out.Data? then out.bytes else []
  }

  /** The bytes the library returns for `req` under `handle`, or nothing when marshalling fails. */
  function Output(lib: Library, handle: Option<Handle>, symbol: string, req: Request,
                  marshal: Request -> Result<seq<byte>, Error>): Option<ProtoBuffer>
  {
    match marshal(req)
    case Failure(_) => None
    case Success(reqBytes) => Some(CallSymbol(lib, handle, symbol, InputOf(reqBytes).0, InputOf(reqBytes).1))
  }

  /** The outcome of one call through the buffer protocol. */
  function CallResult<R>(lib: Library, handle: Option<Handle>, symbol: string, req: Request,
                         marshal: Request -> Result<seq<byte>, Error>,
                         unmarshal: seq<byte> -> Result<R, Error>, zero: R): (r: Result<R, Error>)
    ensures r.Failure? ==>
      r.error == Message("FFI call returned null pointer") ||
      (marshal(req).Failure? && r.error == Wrapped("failed to marshal request", marshal(req).error)) ||
      (r.error.Wrapped? && r.error.context == "failed to unmarshal response")
  {
    match marshal(req)
    case Failure(e) => Failure(Wrapped("failed to marshal request", e))
    case Success(_) =>
      var out := Output(lib, handle, symbol, req, marshal).value;
      if NullWithLength(out) then Failure(Message("FFI call returned null pointer"))
      else if |CopyOut(out)| == 0 then Success(zero)
      else match unmarshal(CopyOut(out))
        case Failure(e) => Failure(Wrapped("failed to unmarshal response", e))
        case Success(v) => Success(v)
  }

  /** The steps one call through the buffer protocol takes, in order. */
  ghost function CallEvents(lib: Library, handle: Option<Handle>, symbol: string, req: Request,
                            marshal: Request -> Result<seq<byte>, Error>): (events: seq<Event>)
    ensures events == [] <==> marshal(req).Failure?
    ensures events != [] ==> events[0].Called? && events[0].symbol == symbol
    ensures forall i :: 0 < i < |events| ==> !events[i].Called?
    ensures |events| <= 4
  {
    match marshal(req)
    case Failure(_) => []
    case Success(reqBytes) =>
      var out := Output(lib, handle, symbol, req, marshal).value;
      var respBytes := CopyOut(out);
      [Called(symbol, InputOf(reqBytes).0, InputOf(reqBytes).1)] +
      if NullWithLength(out) then []
      else
        (if |respBytes| > 0 then [Copied(respBytes)] else []) +
        [Freed(out, lib.hasFree(handle))] +
        (if |respBytes| > 0 then [Decoded(respBytes)] else [])
  }

  /** How many times a trace gives a buffer back to the library. */
  function FreeCount(events: seq<Event>): nat {
    if events == [] then 0 else (if events[0].Freed? then 1 else 0) + FreeCount(events[1..])
  }

  lemma {:induction false} FreeCountAppend(a: seq<Event>, b: seq<Event>)
    ensures FreeCount(a + b) == FreeCount(a) + FreeCount(b)
  {
    if a == [] {
      assert a + b == b;
    } else {
      assert (a + b)[1..] == a[1..] + b;
      FreeCountAppend(a[1..], b);
    }
  }

  // ---------------------------------------------------------------------
  // Properties of the buffer protocol.
  // ---------------------------------------------------------------------

  /** A request that cannot be marshalled never reaches the library. */
  lemma MarshalFailureCallsNothing<R>(lib: Library, handle: Option<Handle>, symbol: string, req: Request,
                                      marshal: Request -> Result<seq<byte>, Error>,
                                      unmarshal: seq<byte> -> Result<R, Error>, zero: R)
    requires marshal(req).Failure?
    ensures CallResult(lib, handle, symbol, req, marshal, unmarshal, zero) == Failure(Wrapped("failed to marshal request", marshal(req).error))
    ensures CallEvents(lib, handle, symbol, req, marshal) == []
  {
  }

  /** A NULL buffer with a positive length is an error, and that buffer is never freed nor read. */
  lemma NullDataRejectedBeforeFree<R>(lib: Library, handle: Option<Handle>, symbol: string, req: Request,
                                      marshal: Request -> Result<seq<byte>, Error>,
                                      unmarshal: seq<byte> -> Result<R, Error>, zero: R)
    requires marshal(req).Success? && NullWithLength(Output(lib, handle, symbol, req, marshal).value)
    ensures CallResult(lib, handle, symbol, req, marshal, unmarshal, zero) == Failure(Message("FFI call returned null pointer"))
    ensures FreeCount(CallEvents(lib, handle, symbol, req, marshal)) == 0
    ensures forall e :: e in CallEvents(lib, handle, symbol, req, marshal) ==> e.Called?
  {
    var events := CallEvents(lib, handle, symbol, req, marshal);
    assert FreeCount(events[1..]) == 0;
  }

  /**
   * Every other buffer the library returns is handed to the free helper exactly
   * once, whether or not it decodes; the helper releases it exactly when the
   * library exports the free symbol.
   */
  lemma BufferFreedExactlyOnce(lib: Library, handle: Option<Handle>, symbol: string, req: Request,
                               marshal: Request -> Result<seq<byte>, Error>)
    requires marshal(req).Success? && !NullWithLength(Output(lib, handle, symbol, req, marshal).value)
    ensures FreeCount(CallEvents(lib, handle, symbol, req, marshal)) == 1
    ensures forall e :: e in CallEvents(lib, handle, symbol, req, marshal) && e.Freed? ==>
      e.buffer == Output(lib, handle, symbol, req, marshal).value && (e.released <==> lib.hasFree(handle))
  {
    var reqBytes := marshal(req).value;
    var out := Output(lib, handle, symbol, req, marshal).value;
    var respBytes := CopyOut(out);
    var called: seq<Event> := [Called(symbol, InputOf(reqBytes).0, InputOf(reqBytes).1)];
    var copied: seq<Event> := if |respBytes| > 0 then [Copied(respBytes)] else [];
    var freed: seq<Event> := [Freed(out, lib.hasFree(handle))];
    var decoded: seq<Event> := if |respBytes| > 0 then [Decoded(respBytes)] else [];
    assert CallEvents(lib, handle, symbol, req, marshal) == called + (copied + freed + decoded);
    FreeCountAppend(called, copied + freed + decoded);
    FreeCountAppend(copied + freed, decoded);
    FreeCountAppend(copied, freed);
    assert FreeCount(called) == 0 by { assert called[1..] == []; }
    assert FreeCount(freed) == 1 by { assert freed[1..] == []; }
    assert FreeCount(copied) == 0 by { if copied != [] { assert copied[1..] == []; } }
    assert FreeCount(decoded) == 0 by { if decoded != [] { assert decoded[1..] == []; } }
  }

  /**
   * The response is copied before the buffer is freed and decoded after it,
   * and what is decoded is the copy.
   */
  lemma CopyBeforeFreeBeforeDecode(lib: Library, handle: Option<Handle>, symbol: string, req: Request,
                                   marshal: Request -> Result<seq<byte>, Error>)
    ensures var events := CallEvents(lib, handle, symbol, req, marshal);
      (forall i, j :: 0 <= i < |events| && 0 <= j < |events| && events[i].Copied? && events[j].Freed? ==> i < j) &&
      (forall i, j :: 0 <= i < |events| && 0 <= j < |events| && events[i].Freed? && events[j].Decoded? ==> i < j) &&
      (forall i, j :: 0 <= i < |events| && 0 <= j < |events| && events[i].Copied? && events[j].Decoded? ==>
         events[i].bytes == events[j].bytes)
  {
  }

  /** An empty response (NULL with length 0, or no bytes) is not decoded: the reply keeps its zero value. */
  lemma EmptyOutputSkipsDecode<R>(lib: Library, handle: Option<Handle>, symbol: string, req: Request,
                                  marshal: Request -> Result<seq<byte>, Error>,
                                  unmarshal: seq<byte> -> Result<R, Error>, zero: R)
    requires marshal(req).Success?
    requires Output(lib, handle, symbol, req, marshal).value in {NullData(0), Data([])}
    ensures CallResult(lib, handle, symbol, req, marshal, unmarshal, zero) == Success(zero)
    ensures forall e :: e in CallEvents(lib, handle, symbol, req, marshal) ==> !e.Decoded? && !e.Copied?
  {
  }

  /** A symbol the library does not export behaves like an empty response: success with the zero reply. */
  lemma MissingSymbolYieldsZero<R>(lib: Library, handle: Option<Handle>, symbol: string, req: Request,
                                   marshal: Request -> Result<seq<byte>, Error>,
                                   unmarshal: seq<byte> -> Result<R, Error>, zero: R)
    requires marshal(req).Success? && lib.lookup(handle, symbol).None?
    ensures CallResult(lib, handle, symbol, req, marshal, unmarshal, zero) == Success(zero)
  {
    assert Output(lib, handle, symbol, req, marshal).value == NullData(0);
  }

  /** A non-empty response is decoded, and a decoding error is reported with its context. */
  lemma NonEmptyOutputDecoded<R>(lib: Library, handle: Option<Handle>, symbol: string, req: Request,
                                 marshal: Request -> Result<seq<byte>, Error>,
                                 unmarshal: seq<byte> -> Result<R, Error>, zero: R)
    requires marshal(req).Success?
    requires Output(lib, handle, symbol, req, marshal).value.Data?
    requires |Output(lib, handle, symbol, req, marshal).value.bytes| > 0
    ensures var bytes := Output(lib, handle, symbol, req, marshal).value.bytes;
      var r := CallResult(lib, handle, symbol, req, marshal, unmarshal, zero);
      (unmarshal(bytes).Success? ==> r == Success(unmarshal(bytes).value)) &&
      (unmarshal(bytes).Failure? ==> r == Failure(Wrapped("failed to unmarshal response", unmarshal(bytes).error)))
  {
  }

  // ---------------------------------------------------------------------
  // Entry points and error contexts.
  // ---------------------------------------------------------------------

  /** The exported entry point each operation calls. */
  function Symbol(op: Operation): string {
    match op
    case Ping => "ping_proto"
    case ValidateConfig => "validate_config_proto"
    case LoadConfig => "load_config_proto"
    case GetMetadata => "get_metadata_proto"
    case CreateDataSource => "datasource_create_proto"
    case QueryDataSource => "datasource_query_proto"
    case ExecuteDataSource => "datasource_execute_proto"
    case InsertDataSource => "datasource_insert_proto"
    case PingDataSource => "datasource_ping_proto"
    case CloseDataSource => "datasource_close_proto"
    case CreateLLM => "llm_create_proto"
    case GenerateLLM => "llm_generate_proto"
    case ChatLLM => "llm_chat_proto"
    case EmbeddingLLM => "llm_embedding_proto"
    case PingLLM => "llm_ping_proto"
    case CloseLLM => "llm_close_proto"
  }

  /** The symbol that releases returned buffers. */
  const FreeSymbol := "proto_buffer_free"

  /** Each operation has its own entry point, none of which is the release function. */
  lemma SymbolsDistinct(a: Operation, b: Operation)
    ensures Symbol(a) == Symbol(b) ==> a == b
    ensures Symbol(a) != FreeSymbol
  {
  }

  /** The text each operation puts in front of an error from the buffer protocol. */
  function Context(op: Operation): string {
    match op
    case Ping => "ping failed"
    case ValidateConfig => "validate config failed"
    case LoadConfig => "load config failed"
    case GetMetadata => "get metadata failed"
    case CreateDataSource => "datasource create failed"
    case QueryDataSource => "datasource query failed"
    case ExecuteDataSource => "datasource execute failed"
    case InsertDataSource => "datasource insert failed"
    case PingDataSource => "datasource ping failed"
    case CloseDataSource => "datasource close failed"
    case CreateLLM => "llm create failed"
    case GenerateLLM => "llm generate failed"
    case ChatLLM => "llm chat failed"
    case EmbeddingLLM => "llm embedding failed"
    case PingLLM => "llm ping failed"
    case CloseLLM => "llm close failed"
  }

  /**
   * The error contexts are pairwise distinct, so a wrapped error names its
   * operation. (GetMetadata's nil-metadata error is returned bare.)
   */
  lemma ContextIdentifiesOperation(a: Operation, b: Operation)
    ensures Context(a) == Context(b) ==> a == b
  {
  }

  /** The query response never carries rows, whatever the reply holds. */
  function QueryWithoutRows(reply: QueryReply): (r: DataSourceQueryResponse)
    ensures r.rows == []
    ensures r.success == reply.success && r.message == reply.error
  {
    DataSourceQueryResponse(reply.success, [], reply.error)
  }

  /** The dynamic loader's answer for a path: a handle, or nothing (the reason comes from `dlerror`). */
  method NewFFI(libraryPath: string, dlopen: string -> Option<Handle>, dlerror: string)
    returns (r: Result<FFIClient, Error>)
    ensures dlopen(libraryPath).None? ==>
      r == Failure(Message("failed to load FFI library " + libraryPath + ": " + dlerror))
    ensures dlopen(libraryPath).Some? ==>
      r.Success? && fresh(r.value) && r.value.handle == dlopen(libraryPath) &&
      r.value.path == libraryPath && r.value.trace == []
  {
    var handle := dlopen(libraryPath);
    if handle.None? {
      return Failure(Message("failed to load FFI library " + libraryPath + ": " + dlerror));
    }
    var client := new FFIClient(libraryPath, handle.value);
    r := Success(client);
  }

  class FFIClient {
    var handle: Option<Handle>
    const path: string
    ghost var trace: seq<Event>

    constructor (libraryPath: string, loaded: Handle)
      ensures handle == Some(loaded) && path == libraryPath && trace == []
    {
      handle := Some(loaded);
      path := libraryPath;
      trace := [];
    }

    /** Unloads the library once: the handle is cleared, and closing always reports no error. */
    method Close() returns (err: Option<Error>)
      modifies this
      ensures err.None?
      ensures handle.None?
      ensures old(handle).Some? ==> trace == old(trace) + [Unloaded(old(handle).value)]
      ensures old(handle).None? ==> trace == old(trace)
    {
      if handle.Some? {
        trace := trace + [Unloaded(handle.value)];
        handle := None;
      }
      err := None;
    }

    /** Closing twice unloads at most once, and both closes report no error. */
    method CloseTwice() returns (first: Option<Error>, second: Option<Error>)
      modifies this
      ensures first.None? && second.None? && handle.None?
      ensures trace == old(trace) + (if old(handle).Some? then [Unloaded(old(handle).value)] else [])
    {
      first := Close();
      second := Close();
    }

    /** One call through the buffer protocol. */
    method CallFFI<R>(symbol: string, req: Request, lib: Library,
                      marshal: Request -> Result<seq<byte>, Error>,
                      unmarshal: seq<byte> -> Result<R, Error>, zero: R)
      returns (r: Result<R, Error>)
      modifies this`trace
      ensures r == CallResult(lib, handle, symbol, req, marshal, unmarshal, zero)
      ensures trace == old(trace) + CallEvents(lib, handle, symbol, req, marshal)
    {
      var marshalled := marshal(req);
      if marshalled.Failure? {
        return Failure(Wrapped("failed to marshal request", marshalled.error));
      }
      var reqBytes := marshalled.value;
      var inputPtr: InputPointer;
      var inputLen: nat;
      if |reqBytes| > 0 {
        inputPtr, inputLen := FirstByteOf(reqBytes), |reqBytes|;
      } else {
        inputPtr, inputLen := NullPointer, 0;
      }
      var outputBuf := CallSymbol(lib, handle, symbol, inputPtr, inputLen);
      trace := trace + [Called(symbol, inputPtr, inputLen)];
      if outputBuf.NullData? && outputBuf.len > 0 {
        return Failure(Message("FFI call returned null pointer"));
      }
      var respBytes: seq<byte> := [];
      if outputBuf.Data? && |outputBuf.bytes| > 0 {
        respBytes := outputBuf.bytes;
        trace := trace + [Copied(respBytes)];
      }
      trace := trace + [Freed(outputBuf, lib.hasFree(handle))];
      if |respBytes| > 0 {
        trace := trace + [Decoded(respBytes)];
        var decoded := unmarshal(respBytes);
        if decoded.Failure? {
          return Failure(Wrapped("failed to unmarshal response", decoded.error));
        }
        return Success(decoded.value);
      }
      r := Success(zero);
    }

    // Operator operations.

    method Ping(lib: Library, marshal: Request -> Result<seq<byte>, Error>,
                unmarshal: seq<byte> -> Result<PingReply, Error>)
      returns (r: Result<PingResponse, Error>)
      modifies this`trace
      ensures r == Relay(CallResult(lib, handle, "ping_proto", PingRequest, marshal, unmarshal, ZeroPingReply), "ping failed", PingFrom)
      ensures trace == old(trace) + CallEvents(lib, handle, "ping_proto", PingRequest, marshal)
    {
      assert Symbol(Operation.Ping) == "ping_proto";
      var reply := CallFFI(Symbol(Operation.Ping), PingRequest, lib, marshal, unmarshal, ZeroPingReply);
      r := Relay(reply, Context(Operation.Ping), PingFrom);
    }

    method ValidateConfig(tomlContent: string, lib: Library, marshal: Request -> Result<seq<byte>, Error>,
                          unmarshal: seq<byte> -> Result<ValidateConfigReply, Error>)
      returns (r: Result<ValidateConfigResponse, Error>)
      modifies this`trace
      ensures var req := ValidateConfigRequest(tomlContent);
        r == Relay(CallResult(lib, handle, "validate_config_proto", req, marshal, unmarshal, ZeroValidateConfigReply),
                   "validate config failed", ValidateConfigFrom) &&
        trace == old(trace) + CallEvents(lib, handle, "validate_config_proto", req, marshal)
    {
      assert Symbol(Operation.ValidateConfig) == "validate_config_proto";
      var reply := CallFFI(Symbol(Operation.ValidateConfig), ValidateConfigRequest(tomlContent), lib, marshal, unmarshal, ZeroValidateConfigReply);
      r := Relay(reply, Context(Operation.ValidateConfig), ValidateConfigFrom);
    }

    method LoadConfig(configPath: string, lib: Library, marshal: Request -> Result<seq<byte>, Error>,
                      unmarshal: seq<byte> -> Result<LoadConfigReply, Error>)
      returns (r: Result<LoadConfigResponse, Error>)
      modifies this`trace
      ensures var req := LoadConfigRequest(configPath);
        r == Relay(CallResult(lib, handle, "load_config_proto", req, marshal, unmarshal, ZeroLoadConfigReply),
                   "load config failed", LoadConfigFrom) &&
        trace == old(trace) + CallEvents(lib, handle, "load_config_proto", req, marshal)
    {
      assert Symbol(Operation.LoadConfig) == "load_config_proto";
      var reply := CallFFI(Symbol(Operation.LoadConfig), LoadConfigRequest(configPath), lib, marshal, unmarshal, ZeroLoadConfigReply);
      r := Relay(reply, Context(Operation.LoadConfig), LoadConfigFrom);
    }

    /** A reply without metadata, including the zero reply of an empty response, is an error. */
    method GetMetadata(lib: Library, marshal: Request -> Result<seq<byte>, Error>,
                       unmarshal: seq<byte> -> Result<GetMetadataReply, Error>)
      returns (r: Result<MetadataResponse, Error>)
      modifies this`trace
      ensures var reply := CallResult(lib, handle, "get_metadata_proto", GetMetadataRequest, marshal, unmarshal, ZeroMetadataReply);
        (reply.Failure? ==> r == Failure(Wrapped("get metadata failed", reply.error))) &&
        (reply.Success? ==> r == MetadataFrom(reply.value))
      ensures trace == old(trace) + CallEvents(lib, handle, "get_metadata_proto", GetMetadataRequest, marshal)
    {
      assert Symbol(Operation.GetMetadata) == "get_metadata_proto";
      var reply := CallFFI(Symbol(Operation.GetMetadata), GetMetadataRequest, lib, marshal, unmarshal, ZeroMetadataReply);
      if reply.Failure? {
        return Failure(Wrapped(Context(Operation.GetMetadata), reply.error));
      }
      r := MetadataFrom(reply.value);
    }

    // Datasource operations.

    /** The same descriptor as the gRPC adapter builds; a panicking configuration calls nothing. */
    method CreateDataSource(name: string, config: Config, lib: Library, marshal: Request -> Result<seq<byte>, Error>,
                            unmarshal: seq<byte> -> Result<StatusReply, Error>)
      returns (r: Assert<Result<DataSourceResponse, Error>>)
      modifies this`trace
      ensures DataSourceDescriptor(config).Panic? ==>
        r == Panic(DataSourceDescriptor(config).key) && trace == old(trace)
      ensures DataSourceDescriptor(config).Ok? ==>
        var req := CreateDataSourceRequest(name, DataSourceDescriptor(config).value);
        r == Ok(Relay(CallResult(lib, handle, "datasource_create_proto", req, marshal, unmarshal, ZeroStatusReply),
                      "datasource create failed", DataSourceFromStatus)) &&
        trace == old(trace) + CallEvents(lib, handle, "datasource_create_proto", req, marshal)
    {
      var descriptor :- BuildDataSourceConfig(config);
      assert Symbol(Operation.CreateDataSource) == "datasource_create_proto";
      var reply := CallFFI(Symbol(Operation.CreateDataSource), CreateDataSourceRequest(name, descriptor), lib, marshal, unmarshal, ZeroStatusReply);
      r := Ok(Relay(reply, Context(Operation.CreateDataSource), DataSourceFromStatus));
    }

    /** Whatever rows the library returns, the response holds none. */
    method QueryDataSource(name: string, query: string, lib: Library, marshal: Request -> Result<seq<byte>, Error>,
                           unmarshal: seq<byte> -> Result<QueryReply, Error>)
      returns (r: Result<DataSourceQueryResponse, Error>)
      modifies this`trace
      ensures var req := QueryDataSourceRequest(name, query);
        r == Relay(CallResult(lib, handle, "datasource_query_proto", req, marshal, unmarshal, ZeroQueryReply),
                   "datasource query failed", QueryWithoutRows) &&
        trace == old(trace) + CallEvents(lib, handle, "datasource_query_proto", req, marshal)
      ensures r.Success? ==> r.value.rows == []
    {
      assert Symbol(Operation.QueryDataSource) == "datasource_query_proto";
      var reply := CallFFI(Symbol(Operation.QueryDataSource), QueryDataSourceRequest(name, query), lib, marshal, unmarshal, ZeroQueryReply);
      r := Relay(reply, Context(Operation.QueryDataSource), QueryWithoutRows);
    }

    method ExecuteDataSource(name: string, query: string, lib: Library, marshal: Request -> Result<seq<byte>, Error>,
                             unmarshal: seq<byte> -> Result<StatusReply, Error>)
      returns (r: Result<DataSourceResponse, Error>)
      modifies this`trace
      ensures var req := ExecuteDataSourceRequest(name, query);
        r == Relay(CallResult(lib, handle, "datasource_execute_proto", req, marshal, unmarshal, ZeroStatusReply),
                   "datasource execute failed", DataSourceFromStatus) &&
        trace == old(trace) + CallEvents(lib, handle, "datasource_execute_proto", req, marshal)
    {
      assert Symbol(Operation.ExecuteDataSource) == "datasource_execute_proto";
      var reply := CallFFI(Symbol(Operation.ExecuteDataSource), ExecuteDataSourceRequest(name, query), lib, marshal, unmarshal, ZeroStatusReply);
      r := Relay(reply, Context(Operation.ExecuteDataSource), DataSourceFromStatus);
    }

    /** The data travels as one row of `%v` texts, with an empty table name. */
    method InsertDataSource(name: string, data: Config, lib: Library, marshal: Request -> Result<seq<byte>, Error>,
                            unmarshal: seq<byte> -> Result<StatusReply, Error>)
      returns (r: Result<DataSourceResponse, Error>)
      modifies this`trace
      ensures var req := InsertDataSourceRequest(name, "", InsertRow(data));
        r == Relay(CallResult(lib, handle, "datasource_insert_proto", req, marshal, unmarshal, ZeroStatusReply),
                   "datasource insert failed", DataSourceFromStatus) &&
        trace == old(trace) + CallEvents(lib, handle, "datasource_insert_proto", req, marshal)
    {
      var row := BuildRow(data);
      assert Symbol(Operation.InsertDataSource) == "datasource_insert_proto";
      var reply := CallFFI(Symbol(Operation.InsertDataSource), InsertDataSourceRequest(name, "", row), lib, marshal, unmarshal, ZeroStatusReply);
      r := Relay(reply, Context(Operation.InsertDataSource), DataSourceFromStatus);
    }

    /** The reply's health flag becomes the response's success flag. */
    method PingDataSource(name: string, lib: Library, marshal: Request -> Result<seq<byte>, Error>,
                          unmarshal: seq<byte> -> Result<HealthReply, Error>)
      returns (r: Result<DataSourceResponse, Error>)
      modifies this`trace
      ensures var reply := CallResult(lib, handle, "datasource_ping_proto", PingDataSourceRequest(name), marshal, unmarshal, ZeroHealthReply);
        (reply.Failure? ==> r == Failure(Wrapped("datasource ping failed", reply.error))) &&
        (reply.Success? ==> r.Success? && r.value.success == reply.value.healthy && r.value.message == reply.value.error)
      ensures trace == old(trace) + CallEvents(lib, handle, "datasource_ping_proto", PingDataSourceRequest(name), marshal)
    {
      assert Symbol(Operation.PingDataSource) == "datasource_ping_proto";
      var reply := CallFFI(Symbol(Operation.PingDataSource), PingDataSourceRequest(name), lib, marshal, unmarshal, ZeroHealthReply);
      r := Relay(reply, Context(Operation.PingDataSource), DataSourceFromHealth);
    }

    method CloseDataSource(name: string, lib: Library, marshal: Request -> Result<seq<byte>, Error>,
                           unmarshal: seq<byte> -> Result<StatusReply, Error>)
      returns (r: Result<DataSourceResponse, Error>)
      modifies this`trace
      ensures var req := CloseDataSourceRequest(name);
        r == Relay(CallResult(lib, handle, "datasource_close_proto", req, marshal, unmarshal, ZeroStatusReply),
                   "datasource close failed", DataSourceFromStatus) &&
        trace == old(trace) + CallEvents(lib, handle, "datasource_close_proto", req, marshal)
    {
      assert Symbol(Operation.CloseDataSource) == "datasource_close_proto";
      var reply := CallFFI(Symbol(Operation.CloseDataSource), CloseDataSourceRequest(name), lib, marshal, unmarshal, ZeroStatusReply);
      r := Relay(reply, Context(Operation.CloseDataSource), DataSourceFromStatus);
    }

    // LLM operations.

    /** The same LLM descriptor as the gRPC adapter sends. */
    method CreateLLM(name: string, config: Config, lib: Library, marshal: Request -> Result<seq<byte>, Error>,
                     unmarshal: seq<byte> -> Result<StatusReply, Error>)
      returns (r: Result<LLMResponse, Error>)
      modifies this`trace
      ensures var req := CreateLLMRequest(name, LLMConfigOf(config));
        r == Relay(CallResult(lib, handle, "llm_create_proto", req, marshal, unmarshal, ZeroStatusReply),
                   "llm create failed", LLMFromStatus) &&
        trace == old(trace) + CallEvents(lib, handle, "llm_create_proto", req, marshal)
    {
      assert Symbol(Operation.CreateLLM) == "llm_create_proto";
      var reply := CallFFI(Symbol(Operation.CreateLLM), CreateLLMRequest(name, LLMConfigOf(config)), lib, marshal, unmarshal, ZeroStatusReply);
      r := Relay(reply, Context(Operation.CreateLLM), LLMFromStatus);
    }

    method GenerateLLM(name: string, prompt: string, lib: Library, marshal: Request -> Result<seq<byte>, Error>,
                       unmarshal: seq<byte> -> Result<TextReply, Error>)
      returns (r: Result<LLMGenerateResponse, Error>)
      modifies this`trace
      ensures var req := GenerateLLMRequest(name, prompt);
        r == Relay(CallResult(lib, handle, "llm_generate_proto", req, marshal, unmarshal, ZeroTextReply),
                   "llm generate failed", GenerateFrom) &&
        trace == old(trace) + CallEvents(lib, handle, "llm_generate_proto", req, marshal)
    {
      assert Symbol(Operation.GenerateLLM) == "llm_generate_proto";
      var reply := CallFFI(Symbol(Operation.GenerateLLM), GenerateLLMRequest(name, prompt), lib, marshal, unmarshal, ZeroTextReply);
      r := Relay(reply, Context(Operation.GenerateLLM), GenerateFrom);
    }

    /** The whole history is sent, converted message by message in order. */
    method ChatLLM(name: string, messages: seq<Config>, lib: Library, marshal: Request -> Result<seq<byte>, Error>,
                   unmarshal: seq<byte> -> Result<TextReply, Error>)
      returns (r: Result<LLMGenerateResponse, Error>)
      modifies this`trace
      ensures var req := ChatLLMRequest(name, ProtoMessages(messages));
        r == Relay(CallResult(lib, handle, "llm_chat_proto", req, marshal, unmarshal, ZeroTextReply),
                   "llm chat failed", GenerateFrom) &&
        trace == old(trace) + CallEvents(lib, handle, "llm_chat_proto", req, marshal)
    {
      var protoMessages := ConvertMessages(messages);
      assert Symbol(Operation.ChatLLM) == "llm_chat_proto";
      var reply := CallFFI(Symbol(Operation.ChatLLM), ChatLLMRequest(name, protoMessages), lib, marshal, unmarshal, ZeroTextReply);
      r := Relay(reply, Context(Operation.ChatLLM), GenerateFrom);
    }

    /** The embedding keeps the reply's length, each component widened in place. */
    method EmbeddingLLM(name: string, text: string, lib: Library, marshal: Request -> Result<seq<byte>, Error>,
                        unmarshal: seq<byte> -> Result<EmbeddingReply, Error>)
      returns (r: Result<LLMEmbeddingResponse, Error>)
      modifies this`trace
      ensures var reply := CallResult(lib, handle, "llm_embedding_proto", EmbeddingLLMRequest(name, text), marshal, unmarshal, ZeroEmbeddingReply);
        (r.Success? <==> reply.Success?) &&
        (reply.Failure? ==> r.error == Wrapped("llm embedding failed", reply.error)) &&
        (reply.Success? ==>
          r.value.success == reply.value.success && r.value.message == reply.value.error &&
          |r.value.embedding| == |reply.value.embedding| &&
          forall i :: 0 <= i < |reply.value.embedding| ==> r.value.embedding[i] == Widened(reply.value.embedding[i]))
      ensures trace == old(trace) + CallEvents(lib, handle, "llm_embedding_proto", EmbeddingLLMRequest(name, text), marshal)
    {
      assert Symbol(Operation.EmbeddingLLM) == "llm_embedding_proto";
      var reply := CallFFI(Symbol(Operation.EmbeddingLLM), EmbeddingLLMRequest(name, text), lib, marshal, unmarshal, ZeroEmbeddingReply);
      if reply.Failure? {
        return Failure(Wrapped(Context(Operation.EmbeddingLLM), reply.error));
      }
      var response := EmbeddingFrom(reply.value);
      r := Success(response);
    }

    /** The reply's health flag becomes the response's success flag. */
    method PingLLM(name: string, lib: Library, marshal: Request -> Result<seq<byte>, Error>,
                   unmarshal: seq<byte> -> Result<HealthReply, Error>)
      returns (r: Result<LLMResponse, Error>)
      modifies this`trace
      ensures var reply := CallResult(lib, handle, "llm_ping_proto", PingLLMRequest(name), marshal, unmarshal, ZeroHealthReply);
        (reply.Failure? ==> r == Failure(Wrapped("llm ping failed", reply.error))) &&
        (reply.Success? ==> r.Success? && r.value.success == reply.value.healthy && r.value.message == reply.value.error)
      ensures trace == old(trace) + CallEvents(lib, handle, "llm_ping_proto", PingLLMRequest(name), marshal)
    {
      assert Symbol(Operation.PingLLM) == "llm_ping_proto";
      var reply := CallFFI(Symbol(Operation.PingLLM), PingLLMRequest(name), lib, marshal, unmarshal, ZeroHealthReply);
      r := Relay(reply, Context(Operation.PingLLM), LLMFromHealth);
    }

    method CloseLLM(name: string, lib: Library, marshal: Request -> Result<seq<byte>, Error>,
                    unmarshal: seq<byte> -> Result<StatusReply, Error>)
      returns (r: Result<LLMResponse, Error>)
      modifies this`trace
      ensures var req := CloseLLMRequest(name);
        r == Relay(CallResult(lib, handle, "llm_close_proto", req, marshal, unmarshal, ZeroStatusReply),
                   "llm close failed", LLMFromStatus) &&
        trace == old(trace) + CallEvents(lib, handle, "llm_close_proto", req, marshal)
    {
      assert Symbol(Operation.CloseLLM) == "llm_close_proto";
      var reply := CallFFI(Symbol(Operation.CloseLLM), CloseLLMRequest(name), lib, marshal, unmarshal, ZeroStatusReply);
      r := Relay(reply, Context(Operation.CloseLLM), LLMFromStatus);
    }
  }
}
