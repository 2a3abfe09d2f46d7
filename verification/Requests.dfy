/**
 * The two nested encodings: an engine request carries an execution binding together with the digest
 * of that binding, and an engine instruction puts the phase's discriminator before the request.
 */
module Requests {
  import opened Base
  import opened Bindings
  import opened Wire
  import opened Layouts
  import opened Codec
  import opened Preimages

  const REQUEST_LEN: nat := EXECUTION_LEN + 32
  const INSTRUCTION_LEN: nat := 8 + REQUEST_LEN

  const TRANSITION_DISCRIMINATOR: seq<byte> := [0xfa, 0x8d, 0x5a, 0xf4, 0x72, 0x49, 0x21, 0x6a]
  const PREPARE_DISCRIMINATOR: seq<byte> := [0x79, 0x9b, 0x9c, 0x5a, 0xa4, 0xfc, 0xdc, 0x6d]
  const COMMIT_DISCRIMINATOR: seq<byte> := [0xdf, 0x8c, 0x8e, 0xa5, 0xe5, 0xd0, 0x9c, 0x4a]

  function PhaseDiscriminator(phase: byte): Result<seq<byte>, CodecError> {
    match phase
    case 0 => Ok(TRANSITION_DISCRIMINATOR)
    case 1 => Ok(PREPARE_DISCRIMINATOR)
    case 2 => Ok(COMMIT_DISCRIMINATOR)
    case _ => Err(UnsupportedPhase(phase))
  }

  function ExecutionDigest(sha: Hasher, b: Execution): Result<Bytes32, CodecError> {
    var _ :- ValidateExecutionBinding(b, Zero32());
    Ok(sha(PreimageBytes(ExecutionPreimage(b))))
  }

  /** `validate_engine_request`. */
  function ValidateRequest(sha: Hasher, r: Request): Result<(), CodecError> {
    var expected :- ExecutionDigest(sha, r.binding);
    if r.executionDigest == expected then Ok(()) else Err(ExecutionDigestMismatch)
  }

  function RequestBytes(r: Request): seq<byte> {
    ExecutionBytes(r.binding) + r.executionDigest
  }

  function InstructionBytes(r: Request): seq<byte> {
    match PhaseDiscriminator(r.binding.phase)
    case Ok(discriminator) => discriminator + RequestBytes(r)
    case Err(_) => []
  }

  lemma RequestOffsets(r: Request)
    ensures RequestLaidOut(RequestBytes(r), r)
  {
    hide ExecutionLaidOut, ExecutionBytes;
    ExecutionHead(r.binding);
    ExecutionOffsets(r.binding);
    assert RequestBytes(r)[..382] == ExecutionBytes(r.binding);
    assert RequestBytes(r)[382..414] == r.executionDigest;
  }

  lemma InstructionOffsets(r: Request)
    requires KnownPhase(r.binding.phase)
    ensures InstructionLaidOut(InstructionBytes(r), r)
  {
    hide RequestLaidOut, RequestBytes;
    RequestOffsets(r);
    RequestLength(r);
    assert InstructionBytes(r)[8..] == RequestBytes(r);
  }

  lemma RequestLength(r: Request)
    ensures |RequestBytes(r)| == REQUEST_LEN
  {
    ExecutionHead(r.binding);
  }

  method EncodeRequest(sha: Hasher, r: Request) returns (encoded: Result<seq<byte>, CodecError>)
    ensures encoded == match ValidateRequest(sha, r) case Ok(_) => Ok(RequestBytes(r)) case Err(e) => Err(e)
    ensures encoded.Ok? ==> RequestLaidOut(encoded.value, r)
  {
    hide ExecutionLaidOut, ExecutionBytes, PreimageBytes;
    var _ :- ValidateRequest(sha, r);
    RequestOffsets(r);
    // Cannot fail: the digest was computed from a valid binding.
    var binding := EncodeExecution(r.binding);
    return Ok(binding.value + r.executionDigest);
  }

  method EncodeInstruction(sha: Hasher, r: Request) returns (encoded: Result<seq<byte>, CodecError>)
    ensures encoded == match ValidateRequest(sha, r) case Ok(_) => Ok(InstructionBytes(r)) case Err(e) => Err(e)
    ensures encoded.Ok? ==> InstructionLaidOut(encoded.value, r)
  {
    hide ExecutionLaidOut, ExecutionBytes, PreimageBytes, RequestLaidOut, RequestBytes;
    var request :- EncodeRequest(sha, r);
    InstructionOffsets(r);
    return Ok(PhaseDiscriminator(r.binding.phase).value + request);
  }

  /** What decoding a request must yield: the binding's own verdict, then the digest comparison. */
  ghost predicate RequestDecodes(sha: Hasher, data: seq<byte>, decoded: Result<Request, CodecError>) {
    if |data| != REQUEST_LEN then decoded == Err(InvalidLength(REQUEST_LEN, |data|))
    else exists binding: Result<Execution, CodecError> ::
      ExecutionDecodes(data[..EXECUTION_LEN], binding) && decoded == Completed(sha, binding, data[EXECUTION_LEN..])
  }

  function Completed(sha: Hasher, binding: Result<Execution, CodecError>, digest: Bytes32)
    : Result<Request, CodecError>
  {
    var b :- binding;
    var _ :- ValidateRequest(sha, EngineRequest(b, digest));
    Ok(EngineRequest(b, digest))
  }

  method DecodeRequest(sha: Hasher, data: seq<byte>) returns (decoded: Result<Request, CodecError>)
    ensures RequestDecodes(sha, data, decoded)
    ensures decoded.Ok? ==> RequestLaidOut(data, decoded.value)
  {
    hide ExecutionLaidOut, ExecutionBytes, PreimageBytes, ExecutionDecodes;
    if |data| != REQUEST_LEN {
      return Err(InvalidLength(REQUEST_LEN, |data|));
    }
    var binding := DecodeExecution(data[..EXECUTION_LEN]);
    return Completed(sha, binding, data[EXECUTION_LEN..]);
  }

  /** What decoding an instruction must yield: the request's own verdict, then the discriminator check. */
  ghost predicate InstructionDecodes(sha: Hasher, data: seq<byte>, decoded: Result<Request, CodecError>) {
    if |data| != INSTRUCTION_LEN then decoded == Err(InvalidLength(INSTRUCTION_LEN, |data|))
    else exists request: Result<Request, CodecError> ::
      RequestDecodes(sha, data[8..], request) && decoded == Dispatched(request, data[..8])
  }

  function Dispatched(request: Result<Request, CodecError>, discriminator: seq<byte>): Result<Request, CodecError> {
    var r :- request;
    var expected :- PhaseDiscriminator(r.binding.phase);
    if discriminator == expected then Ok(r) else Err(InvalidDiscriminator)
  }

  method DecodeInstruction(sha: Hasher, data: seq<byte>) returns (decoded: Result<Request, CodecError>)
    ensures InstructionDecodes(sha, data, decoded)
    ensures decoded.Ok? ==> InstructionLaidOut(data, decoded.value)
  {
    hide RequestLaidOut, RequestDecodes;
    if |data| != INSTRUCTION_LEN {
      return Err(InvalidLength(INSTRUCTION_LEN, |data|));
    }
    var request := DecodeRequest(sha, data[8..]);
    return Dispatched(request, data[..8]);
  }

  /**
   * A byte string decodes to `c` exactly when `c` carries the digest of its own valid binding and
   * encodes to that byte string, whatever the hash function is.
   */
  lemma RequestBijection(sha: Hasher, data: seq<byte>, decoded: Result<Request, CodecError>, c: Request)
    requires RequestDecodes(sha, data, decoded)
    ensures ValidateRequest(sha, c).Ok? && RequestBytes(c) == data <==> decoded == Ok(c)
  {
    ExecutionHead(c.binding);
    if |data| == REQUEST_LEN {
      var head, digest := data[..EXECUTION_LEN], data[EXECUTION_LEN..];
      var binding: Result<Execution, CodecError> :|
        ExecutionDecodes(head, binding) && decoded == Completed(sha, binding, digest);
      ExecutionBijection(head, binding, c.binding);
      assert data == head + digest;
      if RequestBytes(c) == data {
        assert RequestBytes(c)[..EXECUTION_LEN] == ExecutionBytes(c.binding);
        assert RequestBytes(c)[EXECUTION_LEN..] == c.executionDigest;
      }
    }
  }

  /** The same for instructions, discriminator included. */
  lemma InstructionBijection(sha: Hasher, data: seq<byte>, decoded: Result<Request, CodecError>, c: Request)
    requires InstructionDecodes(sha, data, decoded)
    ensures ValidateRequest(sha, c).Ok? && InstructionBytes(c) == data <==> decoded == Ok(c)
  {
    ExecutionHead(c.binding);
    if |data| == INSTRUCTION_LEN {
      var head, rest := data[..8], data[8..];
      var request: Result<Request, CodecError> :|
        RequestDecodes(sha, rest, request) && decoded == Dispatched(request, head);
      RequestBijection(sha, rest, request, c);
      assert data == head + rest;
      if ValidateRequest(sha, c).Ok? && InstructionBytes(c) == data {
        assert InstructionBytes(c)[..8] == PhaseDiscriminator(c.binding.phase).value;
        assert InstructionBytes(c)[8..] == RequestBytes(c);
      }
    }
  }

  /** An instruction accepted by one phase's entry point is accepted by no other. */
  lemma PhasesNeverConfused(sha: Hasher, r: Request, s: Request)
    requires ValidateRequest(sha, r).Ok? && ValidateRequest(sha, s).Ok?
    requires InstructionBytes(r)[..8] == InstructionBytes(s)[..8]
    ensures r.binding.phase == s.binding.phase
  {
    assert InstructionBytes(r)[0] == InstructionBytes(r)[..8][0];
    assert InstructionBytes(s)[0] == InstructionBytes(s)[..8][0];
  }
}
