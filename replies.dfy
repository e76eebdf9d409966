/**
 * Reply handling shared by the two protobuf adapters (gRPC and FFI): how a
 * transport error is reported, and how each reply message is copied into the
 * transport-neutral response structure.
 */
module Replies {
  import opened Wrappers
  import opened Proto
  import opened ClientTypes

  /**
   * `if err != nil { return nil, fmt.Errorf("<context>: %w", err) }` followed
   * by the field copy from the reply into the response.
   */
  function Relay<T, U>(reply: Result<T, Error>, context: string, copy: T -> U): (r: Result<U, Error>)
    ensures r.Success? <==> reply.Success?
    ensures reply.Failure? ==> r.error == Wrapped(context, reply.error)
  {
    match reply
    case Failure(e) => Failure(Wrapped(context, e))
    case Success(v) => Success(copy(v))
  }

  /** `if err != nil { return nil, err }`: the error is returned as it came. */
  function Forward<T, U>(reply: Result<T, Error>, copy: T -> U): (r: Result<U, Error>)
    ensures r.Success? <==> reply.Success?
    ensures reply.Failure? ==> r.error == reply.error
  {
    match reply
    case Failure(e) => Failure(e)
    case Success(v) => Success(copy(v))
  }

  // Field copies from reply messages to response structures.

  function PingFrom(reply: PingReply): PingResponse {
    PingResponse(reply.status, reply.version)
  }

  function ValidateConfigFrom(reply: ValidateConfigReply): ValidateConfigResponse {
    ValidateConfigResponse(reply.valid, reply.errors)
  }

  function LoadConfigFrom(reply: LoadConfigReply): LoadConfigResponse {
    LoadConfigResponse(reply.success, reply.operatorName, reply.error)
  }

  function DataSourceFromStatus(reply: StatusReply): DataSourceResponse {
    DataSourceResponse(reply.success, reply.error)
  }

  /** The ping replies carry `healthy`, which becomes the response's success flag. */
  function DataSourceFromHealth(reply: HealthReply): DataSourceResponse {
    DataSourceResponse(reply.healthy, reply.error)
  }

  function LLMFromStatus(reply: StatusReply): LLMResponse {
    LLMResponse(reply.success, reply.error)
  }

  function LLMFromHealth(reply: HealthReply): LLMResponse {
    LLMResponse(reply.healthy, reply.error)
  }

  function GenerateFrom(reply: TextReply): LLMGenerateResponse {
    LLMGenerateResponse(reply.success, reply.text, reply.error)
  }

  /** A reply without metadata is an error of its own, after the transport succeeded. */
  function MetadataFrom(reply: GetMetadataReply): (r: Result<MetadataResponse, Error>)
    ensures r.Success? <==> reply.metadata.Some?
    ensures reply.metadata.None? ==> r.error == Message("metadata is nil in response")
    ensures reply.metadata.Some? ==>
      r.value.name == reply.metadata.value.name &&
      r.value.version == reply.metadata.value.version &&
      r.value.description == reply.metadata.value.description
  {
    match reply.metadata
    case None => Failure(Message("metadata is nil in response"))
    case Some(m) => Success(MetadataResponse(m.name, m.version, m.description))
  }

  // Embeddings: every 32-bit component is widened to 64 bits, in order.

  /** The widened vector. */
  function Widen(xs: seq<Float32>): seq<Float64> {
    if xs == [] then [] else [Widened(xs[0])] + Widen(xs[1..])
  }

  /** Widening keeps the length, and component i of the result is component i of the input. */
  lemma {:induction false} WidenPointwise(xs: seq<Float32>)
    ensures |Widen(xs)| == |xs|
    ensures forall i :: 0 <= i < |xs| ==> Widen(xs)[i] == Widened(xs[i])
  {
    if xs != [] {
      WidenPointwise(xs[1..]);
    }
  }

  /** Widening loses nothing: the narrow vector can be read back. */
  lemma {:induction false} WidenIsInjective(xs: seq<Float32>, ys: seq<Float32>)
    requires Widen(xs) == Widen(ys)
    ensures xs == ys
  {
    WidenPointwise(xs);
    WidenPointwise(ys);
    assert |xs| == |ys|;
    forall i | 0 <= i < |xs|
      ensures xs[i] == ys[i]
    {
      assert Widen(xs)[i] == Widened(xs[i]);
      assert Widen(ys)[i] == Widened(ys[i]);
    }
  }

  /** The conversion loop: a slice of the reply's length, filled index by index. */
  method WidenAll(xs: seq<Float32>) returns (ys: seq<Float64>)
    ensures ys == Widen(xs)
  {
    var embedding := new Float64[|xs|];
    for i := 0 to |xs|
      invariant forall j :: 0 <= j < i ==> embedding[j] == Widened(xs[j])
    {
      embedding[i] := Widened(xs[i]);
    }
    ys := embedding[..];
    WidenPointwise(xs);
  }

  /** The embedding response: flags and message copied, the vector widened. */
  method EmbeddingFrom(reply: EmbeddingReply) returns (r: LLMEmbeddingResponse)
    ensures r.success == reply.success && r.message == reply.error
    ensures |r.embedding| == |reply.embedding|
    ensures forall i :: 0 <= i < |reply.embedding| ==> r.embedding[i] == Widened(reply.embedding[i])
  {
    var embedding := WidenAll(reply.embedding);
    WidenPointwise(reply.embedding);
    r := LLMEmbeddingResponse(reply.success, embedding, reply.error);
  }
}
