/**
 * The records the wire format carries. `K` stands for a public key and `D` for a 32-byte digest:
 * the codec instantiates both with byte strings, the settlement model with symbolic keys and digests.
 */
module Bindings {
  import opened Base

  const PROBE_WIRE_VERSION: byte := 0

  const TIMING_SINGLE: byte := 0
  const TIMING_PREPARE_COMMIT: byte := 1

  const PHASE_TRANSITION: byte := 0
  const PHASE_PREPARE: byte := 1
  const PHASE_COMMIT: byte := 2

  const MAX_OPAQUE_ACCOUNTS: nat := 8
  const MAX_CAPABILITY_DESCRIPTORS: nat := 1 + MAX_OPAQUE_ACCOUNTS
  const MAX_OPAQUE_PAYLOAD_LEN: nat := 128

  /** `[u8; MAX_OPAQUE_PAYLOAD_LEN]`. */
  type FixedPayload = s: seq<byte> | |s| == MAX_OPAQUE_PAYLOAD_LEN witness seq(MAX_OPAQUE_PAYLOAD_LEN, _ => 0)

  datatype CapabilityDescriptor<K> = CapabilityDescriptor(
    key: K, owner: K, isWritable: bool, isSigner: bool, isExecutable: bool)

  datatype IntentBinding<K, D> = IntentBinding(
    timingMode: byte,
    coreProgram: K, market: K, domain: K, engineProgram: K, engineState: K,
    userAuthority: K, userInput: K, userOutput: K, mintIn: K, mintOut: K,
    domainInputVault: K, domainOutputVault: K, protocolFeeVault: K, feeLedger: K, tokenProgram: K,
    engineRevision: u64, feePolicyRevision: u64, amountIn: u64, protocolFee: u64,
    maxTotalInputDebit: u64, minOutputCredit: u64, maxProtocolFee: u64, expiresAtSlot: u64,
    authorizationNonce: D, authorizedCapabilityHash: D, payloadHash: D)

  datatype ExecutionBinding<K, D> = ExecutionBinding(
    phase: byte, intentDigest: D, phaseContextDigest: D, market: K, domain: K,
    engineRevision: u64, amountIn: u64, protocolFee: u64,
    accountedInputBefore: u64, accountedOutputBefore: u64, accountedFeeBefore: u64, preSequence: u64,
    authorizedCapabilityHash: D, phaseCapabilityHash: D,
    opaqueAccountCount: u16, payloadLen: u16, payload: FixedPayload)

  datatype EngineRequest<K, D> = EngineRequest(binding: ExecutionBinding<K, D>, executionDigest: D)

  datatype EngineReceipt<D> = EngineReceipt(
    phase: byte, intentDigest: D, executionDigest: D, amountOut: u64, stateSequence: u64)

  datatype SettlementBinding<D> = SettlementBinding(
    intentDigest: D, primaryExecutionDigest: D, primaryReceiptDigest: D,
    amountIn: u64, amountOut: u64, protocolFee: u64, totalInputDebit: u64,
    accountedInputBefore: u64, accountedOutputBefore: u64, accountedFeeBefore: u64,
    accountedInputAfter: u64, accountedOutputAfter: u64, accountedFeeAfter: u64,
    observedSourceAfter: u64, observedDestinationAfter: u64, observedInputVaultAfter: u64,
    observedOutputVaultAfter: u64, observedFeeVaultAfter: u64)

  /** Everything the protocol ever hashes, tagged by the hash domain it is hashed under. */
  datatype Preimage<K, D> =
    | CapabilityPreimage(engineProgram: K, descriptors: seq<CapabilityDescriptor<K>>)
    | PayloadPreimage(payload: seq<byte>)
    | IntentPreimage(intent: IntentBinding<K, D>)
    | ExecutionPreimage(execution: ExecutionBinding<K, D>)
    | ReceiptPreimage(receipt: EngineReceipt<D>)
    | SettlementPreimage(settlement: SettlementBinding<D>)

  datatype CodecError =
    | InvalidLength(expected: nat, actual: nat)
    | InvalidDiscriminator
    | InvalidMagic
    | UnsupportedVersion(version: byte)
    | UnsupportedTimingMode(timingMode: byte)
    | UnsupportedPhase(phase: byte)
    | InvalidPhaseForTiming(timingMode: byte, phase: byte)
    | TooManyCapabilityDescriptors(actual: nat)
    | InvalidOpaqueAccountCount(count: u16)
    | PayloadTooLong(actual: nat)
    | InvalidPayloadLength(length: u16)
    | NonCanonicalPayloadPadding
    | InvalidPhaseContext(phase: byte, expectedNonzero: bool)
    | ExecutionDigestMismatch

  predicate KnownTiming(timingMode: byte) {
    timingMode == TIMING_SINGLE || timingMode == TIMING_PREPARE_COMMIT
  }

  predicate KnownPhase(phase: byte) {
    phase == PHASE_TRANSITION || phase == PHASE_PREPARE || phase == PHASE_COMMIT
  }

  function ValidatePhaseForTiming(timingMode: byte, phase: byte): Result<(), CodecError> {
    if !KnownTiming(timingMode) then Err(UnsupportedTimingMode(timingMode))
    else if !KnownPhase(phase) then Err(UnsupportedPhase(phase))
    else if (timingMode == TIMING_SINGLE) == (phase == PHASE_TRANSITION) then Ok(())
    else Err(InvalidPhaseForTiming(timingMode, phase))
  }

  predicate AllZero(bytes: seq<byte>) {
    forall i :: 0 <= i < |bytes| ==> bytes[i] == 0
  }

  /** `validate_execution_binding`; `zero` is the all-zero digest. */
  function ValidateExecutionBinding<K, D(==)>(b: ExecutionBinding<K, D>, zero: D): Result<(), CodecError>
  {
    if !KnownPhase(b.phase) then Err(UnsupportedPhase(b.phase))
    else if (b.phaseContextDigest != zero) != (b.phase == PHASE_COMMIT) then
      Err(InvalidPhaseContext(b.phase, b.phase == PHASE_COMMIT))
    else if b.opaqueAccountCount > MAX_OPAQUE_ACCOUNTS then Err(InvalidOpaqueAccountCount(b.opaqueAccountCount))
    else if b.payloadLen > MAX_OPAQUE_PAYLOAD_LEN then Err(InvalidPayloadLength(b.payloadLen))
    else if !AllZero(b.payload[b.payloadLen..]) then Err(NonCanonicalPayloadPadding)
    else Ok(())
  }

  /** Exactly which execution bindings are valid. */
  lemma BindingValidExactly<K, D>(b: ExecutionBinding<K, D>, zero: D)
    ensures ValidateExecutionBinding(b, zero).Ok? <==>
              && (b.phase == PHASE_TRANSITION || b.phase == PHASE_PREPARE || b.phase == PHASE_COMMIT)
              && (b.phaseContextDigest != zero <==> b.phase == PHASE_COMMIT)
              && b.opaqueAccountCount <= 8 && b.payloadLen <= 128
              && (forall i :: b.payloadLen <= i < 128 ==> b.payload[i] == 0)
    ensures ValidateExecutionBinding(b, zero).Err? ==>
              match ValidateExecutionBinding(b, zero).error
              case UnsupportedPhase(phase) => phase == b.phase > 2
              case InvalidPhaseContext(phase, nonzero) =>
                && phase == b.phase && nonzero == (b.phase == PHASE_COMMIT)
                && (b.phaseContextDigest == zero <==> b.phase == PHASE_COMMIT)
              case InvalidOpaqueAccountCount(count) => count == b.opaqueAccountCount > 8
              case InvalidPayloadLength(length) => length == b.payloadLen > 128
              case NonCanonicalPayloadPadding => exists i :: b.payloadLen <= i < 128 && b.payload[i] != 0
              case _ => false
  {
    if b.payloadLen <= MAX_OPAQUE_PAYLOAD_LEN {
      var padding := b.payload[b.payloadLen..];
      forall i | b.payloadLen <= i < 128 ensures b.payload[i] == padding[i - b.payloadLen] {
      }
      if AllZero(padding) {
        assert forall i :: b.payloadLen <= i < 128 ==> b.payload[i] == 0;
      } else {
        var i :| 0 <= i < |padding| && padding[i] != 0;
        assert b.payload[b.payloadLen + i] != 0;
      }
    }
  }

  /** TRANSITION goes with the single timing, PREPARE and COMMIT with the other, and nothing else goes with anything. */
  lemma PhaseFitsExactly(timingMode: byte, phase: byte)
    ensures ValidatePhaseForTiming(timingMode, phase).Ok? <==>
              || (timingMode == 0 && phase == 0)
              || (timingMode == 1 && (phase == 1 || phase == 2))
  {
  }

  /** `canonical_payload`: the bytes, zero-padded to the fixed width. */
  function Padded(payload: seq<byte>): (padded: FixedPayload)
    requires |payload| <= MAX_OPAQUE_PAYLOAD_LEN
    ensures padded[..|payload|] == payload && AllZero(padded[|payload|..])
  {
    payload + seq(MAX_OPAQUE_PAYLOAD_LEN - |payload|, _ => 0)
  }
}
