/**
 * The wire formats byte by byte: where every field of a record lies in its encoding, and in which byte
 * order. Nothing here refers to how the encoders and decoders go about it.
 */
module Layouts {
  import opened Base
  import opened Bindings
  import opened Wire

  /** The bytes of a key or digest at an offset. */
  predicate Holds(data: seq<byte>, at: nat, blob: seq<byte>) {
    at + |blob| <= |data| && data[at..at + |blob|] == blob
  }

  /** The intent: version, timing, fifteen keys, eight numbers, three digests. */
  predicate IntentLaidOut(data: seq<byte>, b: IntentBinding<Bytes32, Bytes32>) {
    && |data| == 642 && data[0] == 0 && data[1] == b.timingMode
    && Holds(data, 2, b.coreProgram) && Holds(data, 34, b.market) && Holds(data, 66, b.domain)
    && Holds(data, 98, b.engineProgram) && Holds(data, 130, b.engineState) && Holds(data, 162, b.userAuthority)
    && Holds(data, 194, b.userInput) && Holds(data, 226, b.userOutput) && Holds(data, 258, b.mintIn)
    && Holds(data, 290, b.mintOut) && Holds(data, 322, b.domainInputVault) && Holds(data, 354, b.domainOutputVault)
    && Holds(data, 386, b.protocolFeeVault) && Holds(data, 418, b.feeLedger) && Holds(data, 450, b.tokenProgram)
    && Word(data, 482) == b.engineRevision && Word(data, 490) == b.feePolicyRevision
    && Word(data, 498) == b.amountIn && Word(data, 506) == b.protocolFee
    && Word(data, 514) == b.maxTotalInputDebit && Word(data, 522) == b.minOutputCredit
    && Word(data, 530) == b.maxProtocolFee && Word(data, 538) == b.expiresAtSlot
    && Holds(data, 546, b.authorizationNonce) && Holds(data, 578, b.authorizedCapabilityHash)
    && Holds(data, 610, b.payloadHash)
  }

  /** The execution binding: version, phase, two digests, two keys, seven numbers, two digests, closure and payload. */
  predicate ExecutionLaidOut(data: seq<byte>, b: ExecutionBinding<Bytes32, Bytes32>) {
    && |data| == 382 && data[0] == 0 && data[1] == b.phase
    && Holds(data, 2, b.intentDigest) && Holds(data, 34, b.phaseContextDigest)
    && Holds(data, 66, b.market) && Holds(data, 98, b.domain)
    && Word(data, 130) == b.engineRevision && Word(data, 138) == b.amountIn && Word(data, 146) == b.protocolFee
    && Word(data, 154) == b.accountedInputBefore && Word(data, 162) == b.accountedOutputBefore
    && Word(data, 170) == b.accountedFeeBefore && Word(data, 178) == b.preSequence
    && Holds(data, 186, b.authorizedCapabilityHash) && Holds(data, 218, b.phaseCapabilityHash)
    && Half(data, 250) == b.opaqueAccountCount && Half(data, 252) == b.payloadLen
    && Holds(data, 254, b.payload)
  }

  /** The receipt: "PMBRCB00", version, phase, two digests, output, sequence. */
  predicate ReceiptLaidOut(data: seq<byte>, r: EngineReceipt<Bytes32>) {
    && |data| == 90 && data[..8] == [0x50, 0x4D, 0x42, 0x52, 0x43, 0x42, 0x30, 0x30]
    && data[8] == 0 && data[9] == r.phase
    && Holds(data, 10, r.intentDigest) && Holds(data, 42, r.executionDigest)
    && Word(data, 74) == r.amountOut && Word(data, 82) == r.stateSequence
  }

  /** The settlement binding: version, three digests, fifteen numbers. */
  predicate SettlementLaidOut(data: seq<byte>, b: SettlementBinding<Bytes32>) {
    && |data| == 217 && data[0] == 0
    && Holds(data, 1, b.intentDigest) && Holds(data, 33, b.primaryExecutionDigest)
    && Holds(data, 65, b.primaryReceiptDigest)
    && Word(data, 97) == b.amountIn && Word(data, 105) == b.amountOut && Word(data, 113) == b.protocolFee
    && Word(data, 121) == b.totalInputDebit
    && Word(data, 129) == b.accountedInputBefore && Word(data, 137) == b.accountedOutputBefore
    && Word(data, 145) == b.accountedFeeBefore && Word(data, 153) == b.accountedInputAfter
    && Word(data, 161) == b.accountedOutputAfter && Word(data, 169) == b.accountedFeeAfter
    && Word(data, 177) == b.observedSourceAfter && Word(data, 185) == b.observedDestinationAfter
    && Word(data, 193) == b.observedInputVaultAfter && Word(data, 201) == b.observedOutputVaultAfter
    && Word(data, 209) == b.observedFeeVaultAfter
  }

  /** The request: an execution binding, then its digest. */
  predicate RequestLaidOut(data: seq<byte>, r: EngineRequest<Bytes32, Bytes32>) {
    && |data| == 414 && ExecutionLaidOut(data[..382], r.binding) && Holds(data, 382, r.executionDigest)
  }

  /** The instruction: its phase's discriminator, then the request. */
  predicate InstructionLaidOut(data: seq<byte>, r: EngineRequest<Bytes32, Bytes32>) {
    && |data| == 422 && RequestLaidOut(data[8..], r)
    && match r.binding.phase
       case 0 => data[..8] == [0xfa, 0x8d, 0x5a, 0xf4, 0x72, 0x49, 0x21, 0x6a]
       case 1 => data[..8] == [0x79, 0x9b, 0x9c, 0x5a, 0xa4, 0xfc, 0xdc, 0x6d]
       case 2 => data[..8] == [0xdf, 0x8c, 0x8e, 0xa5, 0xe5, 0xd0, 0x9c, 0x4a]
       case _ => false
  }

  // ---- Hashed lists ----

  /** One descriptor's 68 bytes: its position, its two keys, and its flags, writable in bit 0 and signer in bit 1. */
  predicate EntryLaidOut(data: seq<byte>, at: nat, i: nat, d: CapabilityDescriptor<Bytes32>) {
    && at + 68 <= |data| && Half(data, at) == i
    && Holds(data, at + 2, d.key) && Holds(data, at + 34, d.owner)
    && data[at + 66] == (if d.isExecutable then 1 else 0)
    && data[at + 67] == match (d.isWritable, d.isSigner)
                        case (false, false) => 0
                        case (true, false) => 1
                        case (false, true) => 2
                        case (true, true) => 3
  }

  /** The descriptor list: version, engine program, count, and the entries in order. */
  predicate CapabilitiesLaidOut(data: seq<byte>, engineProgram: Bytes32, ds: seq<CapabilityDescriptor<Bytes32>>) {
    && |data| == 35 + 68 * |ds| && data[0] == 0 && Holds(data, 1, engineProgram) && Half(data, 33) == |ds|
    && forall i :: 0 <= i < |ds| ==> EntryLaidOut(data, 35 + 68 * i, i, ds[i])
  }

  /** The payload: version, length, bytes. */
  predicate PayloadLaidOut(data: seq<byte>, payload: seq<byte>) {
    |data| == 3 + |payload| && data[0] == 0 && Half(data, 1) == |payload| && data[3..] == payload
  }

  /** A hash's input: the characters of its domain, one byte each, before the encoding. */
  predicate Tagged(input: seq<byte>, domain: string, encoding: seq<byte>) {
    && |input| == |domain| + |encoding| && input[|domain|..] == encoding
    && forall i :: 0 <= i < |domain| ==> input[i] == domain[i] as nat
  }
}
