/**
 * Symbolic addresses and digests. A program-derived address is an injective tagged constructor over
 * its seeds, and a digest is either raw bytes nobody hashed or the hash of one preimage. Module
 * Interpretation shows what reading `Sha` as injective assumes of SHA-256, exactly.
 */
module Keys {
  import opened Base
  import opened Bindings

  datatype Key =
    | Plain(id: nat)
    | MarketPda(initializer: Key, marketId: nat)
    | DomainPda(market: Key)
    | FeeLedgerPda(market: Key, mint: Key)
    | VaultPda(domain: Key, asset: nat)
    | FeeVaultPda(feeLedger: Key)
    | SpendPda(source: Key, intent: Digest)
    | CallbackPda(engineProgram: Key, engineState: Key, market: Key, domain: Key, intent: Digest, phase: byte)

  datatype Digest =
    | Raw(bytes: nat)
    | Sha(preimage: Preimage<Key, Digest>)

  type Intent = IntentBinding<Key, Digest>
  type Execution = ExecutionBinding<Key, Digest>
  type Request = EngineRequest<Key, Digest>
  type Receipt = EngineReceipt<Digest>
  type Descriptor = CapabilityDescriptor<Key>

  /** The all-zero digest. */
  const ZERO := Raw(0)

  const CORE := Plain(0)
  const SYSTEM_PROGRAM := Plain(1)
  const TOKEN_PROGRAM := Plain(2)
  const TOKEN_2022_PROGRAM := Plain(3)
  const NATIVE_MINT := Plain(4)
  const PLAN_ENGINE := Plain(5)
  const HELPER_PROGRAM := Plain(6)

  const ASSET_A: nat := 0
  const ASSET_B: nat := 1
}
