# OperRouter Go SDK client adapters, modelled in Dafny

The OperRouter Go SDK gives callers one client interface to an OperRouter
server. The interface covers operator calls (ping, validate or load a
configuration, metadata), datasource calls (create, query, execute, insert,
ping, close) and LLM calls (create, generate, chat, embedding, ping, close).
Three adapters implement it:

- **gRPC** (`operrouter/grpc_client.go`) builds protobuf requests, calls the generated stub, wraps errors with the operation's context and copies the reply into the shared response structures.
- **FFI** (`operrouter/ffi_client.go`) loads a native library with `dlopen`. It sends the same protobuf requests through a buffer protocol: marshal, call `<name>_proto`, copy the output, free it with `proto_buffer_free`, unmarshal the copy.
- **HTTP** (`operrouter/http_client.go`) sends each call as one JSON-RPC 2.0 envelope, POSTed to `<base URL>/jsonrpc`.

The model is split into modules that follow that structure:

| file | module | what it holds |
|---|---|---|
| `wrappers.dfy` | `Wrappers` | `Option` and `Result` |
| `proto.dfy` | `Proto` | the protobuf enums, requests, replies and their zero values |
| `client_types.dfy` | `ClientTypes` | loosely typed configuration values, errors, the operation list, the response structures |
| `fmt.dfy` | `Fmt` | `%d` and `%v` as the request builders use them |
| `builders.dfy` | `Builders` | request building shared by gRPC and FFI |
| `replies.dfy` | `Replies` | reply handling shared by gRPC and FFI |
| `grpc_client.dfy` | `GrpcClient` | the gRPC adapter |
| `ffi_client.dfy` | `FfiClient` | the FFI adapter: a class holding the library handle, with a ghost trace of native-memory steps |
| `http_client.dfy` | `HttpClient` | the HTTP adapter |

Modelling choices:

- **The datasource descriptor.** This is the URL plus extras that CreateDataSource derives from a loose `map[string]interface{}`. It is one function, `Builders.DataSourceDescriptor`. The imperative builder `Builders.BuildDataSourceConfig` does the driver switch and the pass over the map, and is proved equal to that function. Both the gRPC and the FFI CreateDataSource call the builder, so the two adapters send the same descriptor.
- **Unchecked type assertions.** The Go code reads `config["host"].(string)` and `config["port"].(float64)` without the `, ok` form. A missing or mistyped value panics. The model makes that panic an explicit outcome, `Builders.Assert`, naming the key, rather than a precondition.
- **Go map iteration.** Loops over Go maps become loops over the key set in an arbitrary order. The results do not depend on the order.
- **Parameters for what is not modelled.** The network, the gRPC stub, the dynamic loader, the native entry points, protobuf and JSON marshalling, and the HTTP POST are all function-typed parameters.

## Model

| member | source | states |
|---|---|---|
| Builders.MapDataSourceType | operrouter/grpc_client.go:151-166 | each tag is produced exactly for its driver strings ("postgres"/"postgresql", "mysql", "redis", "mongodb"/"mongo", "kafka"); unspecified exactly for every other string |
| Builders.MapLLMProvider | operrouter/grpc_client.go:169-182 | OpenAI iff "openai", Ollama iff "ollama", Anthropic iff "anthropic" or "claude", Local iff "local", unspecified otherwise |
| Builders.MapMessageRole | operrouter/grpc_client.go:185-196 | system, user and assistant iff their strings; unspecified otherwise |
| Builders.AssertString | operrouter/grpc_client.go:213 | the string assertion succeeds iff the key holds a string, yields that string, and otherwise panics naming the key |
| Builders.AssertNumber | operrouter/grpc_client.go:214 | the `float64` assertion succeeds iff the key holds a float64 number (a Go `int` fails it), yields it, and otherwise panics naming the key |
| Builders.DataSourceDescriptor | operrouter/grpc_client.go:203-257 | a panic names "host", "port" or "database"; the type tag is the mapped driver; extras come from the configuration and never hold driver, host, port, database or brokers |
| Builders.MappingsAreOnto | operrouter/grpc_client.go:151-196 | every enum tag is reached: its canonical string maps back to it |
| Builders.BuildDataSourceConfig | operrouter/grpc_client.go:203-257 | the driver switch plus the copy loop yield exactly `DataSourceDescriptor(config)`, including the panic on a mistyped host, port or database |
| Builders.CopyRemaining | operrouter/grpc_client.go:243-248 | the loop adds every non-reserved key with its `%v` text to the extras built so far, and nothing else |
| Builders.DescriptorUrl | operrouter/grpc_client.go:211-240 | URL per driver: `postgres://host:port/db`, `mysql://host:port/db`, `redis://host:port`, `mongodb://host:port`, the brokers string for kafka, "" for any other driver |
| Builders.DescriptorKind | operrouter/grpc_client.go:207-209 | the descriptor's type tag is the mapped driver; a missing or non-string driver gives the unspecified tag |
| Builders.DescriptorPanics | operrouter/grpc_client.go:213-235 | building panics iff a host/port driver lacks a string host, an integral float64 port or (SQL drivers) a string database; the panic names the first failing key |
| Builders.DescriptorExtra | operrouter/grpc_client.go:217-222 | extras hold exactly the non-reserved keys, plus string username/password for postgres; values are the `%v` text; host, port, database, driver and brokers are never copied |
| Builders.MysqlCredentialsDropped | operrouter/grpc_client.go:223-227 | a MySQL username or password reaches neither the URL nor the extras |
| Builders.UnknownDriver | operrouter/grpc_client.go:163-164 | an unknown driver never panics: unspecified tag, empty URL, only the copied extras |
| Builders.KafkaBrokersVerbatim | operrouter/grpc_client.go:236-239 | for kafka the brokers string is the URL verbatim and no field is asserted |
| Builders.JsonPostgresUrl | operrouter/grpc_client.go:211-216 | a postgres configuration as JSON decoding delivers it (port a float64) yields the URL "postgres://localhost:5432/testdb" |
| Builders.JsonPostgresDescriptor | operrouter/grpc_client.go:203-257 | the full descriptor of that JSON-decoded configuration: URL plus username and password in the extras |
| Builders.IntPortPanics | examples/datasource_http/main.go:20-27 | the configuration as the HTTP datasource demo writes it, with a Go `int` port literal, makes the gRPC/FFI `float64` port assertion panic with key "port" |
| Builders.StringPortPanics | examples/datasource_ffi/main.go:20-27 | a port given as the string "5432", as this example program passes it, makes the `float64` assertion panic with key "port" |
| Builders.MessageRoundTrip | operrouter/grpc_client.go:480-494 | converting the caller's map form of a message gives the message back |
| Builders.MessageMapRoundTrip | operrouter/grpc_client.go:480-494 | a well-formed message map (known role, string content) is recovered from its protobuf form |
| Builders.MessageDefaults | operrouter/grpc_client.go:482-489 | a missing or non-string role is unspecified; a missing or non-string content is "" |
| Builders.ProtoMessage | operrouter/grpc_client.go:482-492 | a string role is mapped by `MapMessageRole` and a string content copied; a missing or non-string one gives unspecified or "" |
| Builders.ProtoMessages | operrouter/grpc_client.go:480-494 | the converted history has as many messages as the input |
| Builders.ProtoMessagesPreserveOrder | operrouter/grpc_client.go:480-494 | conversion keeps the length, and message i comes from input i |
| Builders.ProtoMessagesAppend | operrouter/grpc_client.go:480-494 | converting a concatenated history is the concatenation of the conversions |
| Builders.ConvertMessages | operrouter/grpc_client.go:480-494 | the array-filling loop yields exactly the converted history |
| Builders.BuildRow | operrouter/grpc_client.go:335-342 | the row's columns are exactly the data keys, each holding the `%v` text of its value as a string value |
| Builders.InsertRow | operrouter/grpc_client.go:335-342 | the row's columns are exactly the data keys, every column holds a string value, and string data is sent verbatim |
| Builders.LLMConfigOf | operrouter/grpc_client.go:416-430 | a string provider is mapped by `MapLLMProvider`, any other provider is unspecified; the API key is present iff "api_key" holds a string; model is the "model" string or "" |
| Builders.LLMConfigReadsThreeKeys | operrouter/grpc_client.go:416-430 | two configurations that agree on provider, model and api_key give the same LLM descriptor |
| Fmt.NatToString | operrouter/grpc_client.go:216 | `%d` of a non-negative number is never empty |
| Fmt.NatToStringDigits | operrouter/grpc_client.go:216 | `%d` of a non-negative number consists of decimal digits only |
| Fmt.IntToString | operrouter/grpc_client.go:216 | `%d` of an integer is never empty and starts with '-' exactly when the integer is negative |
| Fmt.ParseNatToString | operrouter/grpc_client.go:216 | the digits `%d` prints read back to the same number |
| Fmt.IntToStringRoundTrip | operrouter/grpc_client.go:216 | the printed port reads back to the same integer and contains no ':' or '/', so the URL's separators are unambiguous |
| Fmt.FloatToString | operrouter/grpc_client.go:246 | `%v` of an integral float64 uses exponent form exactly when the magnitude is at least 10^6, and is the plain `%d` digits below that |
| Fmt.ScientificDenotes | operrouter/grpc_client.go:246 | the exponent form denotes the number: the shortest significand (no trailing zero, non-zero leading digit) scaled by the exponent gives the magnitude back, and the exponent is at least 6 |
| Fmt.MillionExample | operrouter/grpc_client.go:246 | 10^6 as a float64 prints as "1e+06" |
| Fmt.TimestampExample | operrouter/grpc_client.go:340 | a Unix timestamp such as 1700000000, decoded as a float64, prints as "1.7e+09" |
| Fmt.Show | operrouter/grpc_client.go:246 | `%v` of a string is the string itself; a float64 uses exponent form exactly from magnitude 10^6; a Go `int` prints in plain decimal at any size and reads back to itself |
| Replies.Relay | operrouter/grpc_client.go:61-69 | the response exists iff the call succeeded; a failure becomes the error wrapped with the given context |
| Replies.Forward | operrouter/grpc_client.go:259-267 | the response exists iff the call succeeded; a failure is returned unwrapped |
| Replies.MetadataFrom | operrouter/grpc_client.go:131-139 | a reply without metadata is the error "metadata is nil in response"; otherwise name, version and description are copied |
| Replies.WidenPointwise | operrouter/grpc_client.go:530-533 | widening keeps the length and widens component i into place i |
| Replies.WidenIsInjective | operrouter/grpc_client.go:530-533 | two embeddings with equal widened forms are equal: widening loses nothing |
| Replies.WidenAll | operrouter/grpc_client.go:530-533 | the slice-filling loop yields exactly the widened vector |
| Replies.EmbeddingFrom | operrouter/grpc_client.go:535-539 | the response keeps the reply's flag and message, and its embedding has the reply's length, each component widened |
| GrpcClient.NewGRPC | operrouter/grpc_client.go:29-50 | a dial failure is wrapped with "failed to connect to gRPC server"; success gives a client on that connection with a 5-second timeout |
| GrpcClient.Close | operrouter/grpc_client.go:143-148 | no connection: no error and nothing changes; otherwise whatever closing the connection reports, after which the client still holds that connection, now closed |
| GrpcClient.CloseTwice | operrouter/grpc_client.go:143-148 | a second close calls the connection's close again, on the already-closed connection, so it reports what the library gives for that rather than repeating the first report |
| GrpcClient.ContextIdentifiesOperation | operrouter/grpc_client.go:63-577 | CreateDataSource alone returns stub errors bare; every other error context names one operation |
| GrpcClient.Ping | operrouter/grpc_client.go:53-70 | the error is wrapped with "ping failed"; otherwise status and version are copied |
| GrpcClient.ValidateConfig | operrouter/grpc_client.go:73-92 | the request carries the TOML text; "validate config failed" wraps errors; valid and errors are copied |
| GrpcClient.LoadConfig | operrouter/grpc_client.go:95-115 | the request carries the path; "load config failed" wraps errors; success, operator name and error are copied |
| GrpcClient.GetMetadata | operrouter/grpc_client.go:118-140 | a transport error is wrapped with "get metadata failed"; a nil metadata is the error "metadata is nil in response"; success iff the call succeeded with metadata |
| GrpcClient.CreateDataSource | operrouter/grpc_client.go:201-268 | sends `DataSourceDescriptor(config)`; a panicking configuration never calls the stub; the stub's error comes back unwrapped |
| GrpcClient.ConvertRows | operrouter/grpc_client.go:287-295 | one row map per protobuf row, in order, each with exactly the row's column names and protobuf values |
| GrpcClient.QueryDataSource | operrouter/grpc_client.go:271-302 | "query datasource failed" wraps errors; the rows keep count, order, column names and values |
| GrpcClient.ExecuteDataSource | operrouter/grpc_client.go:305-325 | "execute datasource failed" wraps errors; success and error are copied |
| GrpcClient.InsertDataSource | operrouter/grpc_client.go:328-360 | sends the `%v` row with an empty table name; "insert datasource failed" wraps errors |
| GrpcClient.PingDataSource | operrouter/grpc_client.go:363-382 | "ping datasource failed" wraps errors; the response's success is the reply's healthy flag |
| GrpcClient.CloseDataSource | operrouter/grpc_client.go:385-404 | "close datasource failed" wraps errors; success and error are copied |
| GrpcClient.CreateLLM | operrouter/grpc_client.go:409-445 | sends `LLMConfigOf(config)`; "create llm failed" wraps errors |
| GrpcClient.GenerateLLM | operrouter/grpc_client.go:448-469 | "generate llm failed" wraps errors; success, text and error are copied |
| GrpcClient.ChatLLM | operrouter/grpc_client.go:472-510 | sends the converted history in order; "chat llm failed" wraps errors |
| GrpcClient.EmbeddingLLM | operrouter/grpc_client.go:513-540 | "embedding llm failed" wraps errors; the embedding is the widened reply vector |
| GrpcClient.PingLLM | operrouter/grpc_client.go:543-562 | "ping llm failed" wraps errors; the response's success is the reply's healthy flag |
| GrpcClient.CloseLLM | operrouter/grpc_client.go:565-584 | "close llm failed" wraps errors; success and error are copied |
| FfiClient.InputOf | operrouter/ffi_client.go:193-203 | the input pointer is NULL iff the marshalled request is empty; the length is the request's length |
| FfiClient.CallSymbol | operrouter/ffi_client.go:36-40 | the C helper: an unresolved symbol yields `{NULL, 0}`; a resolved one is called with the input pointer and length |
| FfiClient.CallResult | operrouter/ffi_client.go:182-230 | the only errors one protocol call produces are the marshal error, "FFI call returned null pointer" and the unmarshal error |
| FfiClient.CallEvents | operrouter/ffi_client.go:182-230 | a call makes no native step iff marshalling fails; otherwise exactly one native call, first, to the given symbol; at most four steps |
| FfiClient.FreeCountAppend | operrouter/ffi_client.go:219-220 | release steps of two traces add up |
| FfiClient.MarshalFailureCallsNothing | operrouter/ffi_client.go:187-191 | a request that cannot be marshalled gives "failed to marshal request" and no native step |
| FfiClient.NullDataRejectedBeforeFree | operrouter/ffi_client.go:208-211 | NULL data with a positive length is the error "FFI call returned null pointer"; that buffer is neither copied nor freed |
| FfiClient.BufferFreedExactlyOnce | operrouter/ffi_client.go:213-220 | every other returned buffer is handed to the free helper exactly once, whether or not it decodes; the helper releases it exactly when the library exports `proto_buffer_free` |
| FfiClient.CopyBeforeFreeBeforeDecode | operrouter/ffi_client.go:213-227 | the copy precedes the free, the free precedes decoding, and what is decoded is the copy |
| FfiClient.EmptyOutputSkipsDecode | operrouter/ffi_client.go:222-229 | an empty output (NULL and 0, or no bytes) is never decoded; the call succeeds with the zero reply |
| FfiClient.MissingSymbolYieldsZero | operrouter/ffi_client.go:36-40 | an entry point the library does not export yields `{NULL, 0}`, so the call succeeds with the zero reply |
| FfiClient.NonEmptyOutputDecoded | operrouter/ffi_client.go:222-229 | a non-empty output is decoded; a decoding error is wrapped with "failed to unmarshal response" |
| FfiClient.SymbolsDistinct | operrouter/ffi_client.go:36-137 | each operation has its own `<name>_proto` entry point, and none is `proto_buffer_free` |
| FfiClient.ContextIdentifiesOperation | operrouter/ffi_client.go:240-658 | the error contexts are pairwise distinct, so a wrapped error names its operation (the nil-metadata error of GetMetadata is returned bare) |
| FfiClient.QueryWithoutRows | operrouter/ffi_client.go:407-414 | the query response never holds rows; flag and message come from the reply |
| FfiClient.NewFFI | operrouter/ffi_client.go:157-179 | a failed load is the error "failed to load FFI library <path>: <dlerror>"; otherwise a fresh client holding the handle and path |
| FfiClient.FFIClient.constructor | operrouter/ffi_client.go:168-171 | the client holds the loaded handle and the path, with an empty trace |
| FfiClient.FFIClient.Close | operrouter/ffi_client.go:311-317 | unloads only a present handle, clears it, and always reports no error |
| FfiClient.FFIClient.CloseTwice | operrouter/ffi_client.go:311-317 | two closes report no error and unload at most once |
| FfiClient.FFIClient.CallFFI | operrouter/ffi_client.go:182-230 | the outcome is `CallResult` and the trace grows by exactly `CallEvents`, the protocol's steps in order |
| FfiClient.FFIClient.Ping | operrouter/ffi_client.go:233-247 | calls `ping_proto`; "ping failed" wraps errors; status and version are copied |
| FfiClient.FFIClient.ValidateConfig | operrouter/ffi_client.go:250-266 | calls `validate_config_proto`; "validate config failed" wraps errors |
| FfiClient.FFIClient.LoadConfig | operrouter/ffi_client.go:269-286 | calls `load_config_proto`; "load config failed" wraps errors |
| FfiClient.FFIClient.GetMetadata | operrouter/ffi_client.go:289-308 | calls `get_metadata_proto`; "get metadata failed" wraps errors; a reply without metadata, including an empty output, is an error |
| FfiClient.FFIClient.CreateDataSource | operrouter/ffi_client.go:322-391 | sends the same `DataSourceDescriptor(config)` as gRPC to `datasource_create_proto`; a panic calls nothing and leaves the trace unchanged |
| FfiClient.FFIClient.QueryDataSource | operrouter/ffi_client.go:394-415 | calls `datasource_query_proto`; a successful response never carries rows |
| FfiClient.FFIClient.ExecuteDataSource | operrouter/ffi_client.go:418-435 | calls `datasource_execute_proto`; "datasource execute failed" wraps errors |
| FfiClient.FFIClient.InsertDataSource | operrouter/ffi_client.go:438-467 | sends the same `%v` row as gRPC with an empty table name; "datasource insert failed" wraps errors |
| FfiClient.FFIClient.PingDataSource | operrouter/ffi_client.go:470-486 | "datasource ping failed" wraps errors; success is the reply's healthy flag |
| FfiClient.FFIClient.CloseDataSource | operrouter/ffi_client.go:489-505 | calls `datasource_close_proto`; "datasource close failed" wraps errors |
| FfiClient.FFIClient.CreateLLM | operrouter/ffi_client.go:510-542 | sends the same `LLMConfigOf(config)` as gRPC; "llm create failed" wraps errors |
| FfiClient.FFIClient.GenerateLLM | operrouter/ffi_client.go:545-563 | calls `llm_generate_proto`; "llm generate failed" wraps errors |
| FfiClient.FFIClient.ChatLLM | operrouter/ffi_client.go:566-600 | sends the converted history in order; "llm chat failed" wraps errors |
| FfiClient.FFIClient.EmbeddingLLM | operrouter/ffi_client.go:603-627 | "llm embedding failed" wraps errors; the embedding has the reply's length, each component widened |
| FfiClient.FFIClient.PingLLM | operrouter/ffi_client.go:630-646 | "llm ping failed" wraps errors; success is the reply's healthy flag |
| FfiClient.FFIClient.CloseLLM | operrouter/ffi_client.go:649-665 | calls `llm_close_proto`; "llm close failed" wraps errors |
| HttpClient.NewHTTP | operrouter/http_client.go:44-57 | the client keeps the base URL, with a 10-second HTTP timeout and a 5-second call timeout |
| HttpClient.Close | operrouter/http_client.go:168-170 | closing always reports no error |
| HttpClient.Settle | operrouter/http_client.go:78-88 | an error object wins with its code and message; the result is decoded only when both it and the destination are non-null, otherwise the zero value; decode failures are wrapped with "failed to unmarshal result" |
| HttpClient.CallJsonRpc | operrouter/http_client.go:60-89 | marshal, post and decode failures are wrapped with their stage; the post goes to base URL + "/jsonrpc"; a decoded response is settled |
| HttpClient.EnvelopeConstants | operrouter/http_client.go:19-24 | every envelope carries "2.0" and id 1; "params" is emitted iff params is not nil |
| HttpClient.PostsOnlyToEndpoint | operrouter/http_client.go:60-89 | a call's outcome depends on the transport only through marshalling the envelope, the POST of that body to base URL + "/jsonrpc" and decoding its answer: no other URL or body is posted, and nothing when marshalling fails |
| HttpClient.ErrorIgnoresDecoder | operrouter/http_client.go:78-80 | with an error object, the outcome is the same RPC error whatever the decoder or destination |
| HttpClient.NullResultIgnoresDecoder | operrouter/http_client.go:82-88 | a null result is not decoded; the call succeeds with the zero value |
| HttpClient.ErrorFromStage | operrouter/http_client.go:62-76 | a stage's failure is wrapped with that stage's context; a success passes through |
| HttpClient.MethodName | operrouter/http_client.go:94-434 | each operation's method name dispatches back to that operation |
| HttpClient.ParamsOf | operrouter/http_client.go:94-434 | params are absent exactly for Ping and GetMetadata; ValidateConfig and LoadConfig send only their TOML text or path; every other call sends its name; query and execute send the query, generate the prompt, embedding the text, and the ping and close calls the name alone |
| HttpClient.MethodNamesRoundTrip | operrouter/http_client.go:94-434 | method names and operations are one-to-one: each name dispatches back to its operation |
| HttpClient.ParamsOmittedExactly | operrouter/http_client.go:94-156 | the params member is omitted exactly for Ping and GetMetadata |
| HttpClient.ForwardsUnchanged | operrouter/http_client.go:176-358 | configurations, insert data and chat histories are sent as given, with no descriptor building or conversion |
| HttpClient.Ping | operrouter/http_client.go:92-102 | errors pass through unwrapped; status and version come from the result object, "" when missing |
| HttpClient.ValidateConfig | operrouter/http_client.go:105-123 | errors pass through; valid and errors are copied |
| HttpClient.LoadConfig | operrouter/http_client.go:126-146 | errors pass through; the result's `message` becomes the response's error |
| HttpClient.GetMetadata | operrouter/http_client.go:149-165 | errors pass through; name, version and description are copied |
| HttpClient.CreateDataSource | operrouter/http_client.go:175-194 | errors pass through; success and message are copied |
| HttpClient.QueryDataSource | operrouter/http_client.go:197-218 | errors pass through; the decoded rows are returned as they came |
| HttpClient.ExecuteDataSource | operrouter/http_client.go:221-240 | errors pass through; success and message are copied |
| HttpClient.InsertDataSource | operrouter/http_client.go:243-262 | errors pass through; success and message are copied |
| HttpClient.PingDataSource | operrouter/http_client.go:265-283 | errors pass through; the result's own success flag is reported |
| HttpClient.CloseDataSource | operrouter/http_client.go:286-304 | errors pass through; success and message are copied |
| HttpClient.CreateLLM | operrouter/http_client.go:309-328 | errors pass through; success and message are copied |
| HttpClient.GenerateLLM | operrouter/http_client.go:331-352 | errors pass through; success, text and message are copied |
| HttpClient.ChatLLM | operrouter/http_client.go:355-376 | errors pass through; success, text and message are copied |
| HttpClient.EmbeddingLLM | operrouter/http_client.go:379-400 | errors pass through; the decoded embedding is returned as it came |
| HttpClient.PingLLM | operrouter/http_client.go:403-421 | errors pass through; the result's own success flag is reported |
| HttpClient.CloseLLM | operrouter/http_client.go:424-442 | errors pass through; success and message are copied |
| HttpClient.LoadConfigCopiesMessage | operrouter/http_client.go:141-145 | a successful LoadConfig reports the result's `message` as its error |
| HttpClient.GetMetadataZeroOnNull | operrouter/http_client.go:149-165 | a null result with no error gives empty metadata rather than an error, unlike the protobuf adapters |

## Left out

- Contexts, deadlines and timeouts are not modelled. This includes the default 5-second timeout the gRPC adapter applies when the caller passes a nil context; the call timeouts are kept only as constants, and the gRPC dial timeout of 10 seconds is not kept at all.
- Network I/O, the generated gRPC stub, protobuf and JSON encoding, `dlopen`/`dlsym`/`dlclose` and the HTTP POST are not modelled. They are function parameters, and their results are taken as given.
- Concurrency is not modelled. Each model client is used by one caller at a time.
- The gRPC CreateDataSource is the one gRPC operation with no nil-context check. Since contexts are left out, this difference is not captured.
- `ClientOption` values are not modelled. The only option the SDK defines, `WithTimeout`, is a no-op, so applying options never changes a client.
- Fmt.Show: an integral float64 prints as Go's `%v` does, in plain decimal below 10^6 and in exponent form from 10^6 on (1700000000 prints as "1.7e+09"). The significand is the number's significant digits. That is exactly Go's shortest form below 2^53. From 2^53 on Go may print fewer digits (2^60 prints as "1.152921504606847e+18"), and the model prints all of them. This reaches the extras copied by `Builders.CopiedExtras` (and `Builders.CopyRemaining`, `Builders.DescriptorExtra`) and the insert rows of `Builders.InsertRow` and `Builders.BuildRow`. Non-integral numbers, booleans, nested maps and lists are kept as the text they print as.
- Builders.AssertNumber: only integral float64 numbers are `Num` values; a fractional JSON number such as 5432.5 is an `Other`. With such a port the model panics with "port", while Go's `int(float64)` truncates it and builds a URL with port 5432 without panicking. An integral port outside the int64 range is printed exactly in the model, whereas Go's conversion of such a float64 to `int` is implementation-dependent (on amd64 it gives -9223372036854775808).
- FfiClient.FFIClient.CallFFI: `C.int(len)` would turn an output length above 2^31 - 1 into a negative number; this is not modelled.
- Protobuf replies are grouped by shape (`StatusReply`, `HealthReply`, …) rather than one type per operation. Every operation reads only the fields its shape holds.
- Closing a gRPC client twice calls the connection's `Close` twice. The adapter does not clear its connection, so the second call reaches the gRPC library with an already-closed connection (`GrpcClient.CloseTwice`). What the library reports then is a parameter of the model, not a constant. The model follows the code. The FFI and HTTP adapters do close idempotently (`FfiClient.FFIClient.CloseTwice`, `HttpClient.Close`).
- The deprecated HTTP constructor `New` is not modelled separately. It only calls `NewHTTP`.
- The example programs under `examples/` are not modelled. Only their datasource configurations are used. Neither would get past the gRPC or FFI CreateDataSource: the HTTP demo's port is a Go `int` (`Builders.IntPortPanics`) and the FFI demo's port is a string (`Builders.StringPortPanics`). Both fail the `float64` port assertion. The HTTP demo would get past CreateDataSource only because the HTTP adapter forwards the map without asserting anything.
