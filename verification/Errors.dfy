/** The failures of the settlement program and of the constant-product engine. */
module Errors {
  import opened Ledger
  import FixedMath

  datatype EngineError =
    | InvalidRequestEncoding
    | EntrypointPhaseMismatch
    | TooManyCapabilities
    | CapabilityCountMismatch
    | InvalidEngineState
    | EngineStateSigner
    | InvalidCallbackPrivileges
    | AliasedCallbackAuthority
    | PrepareStateMustBeReadOnly
    | MutationStateMustBeWritable
    | OpaqueSignerInEngine
    | PrepareCapabilityWritable
    | InvalidMode
    | MarketMismatch
    | RevisionMismatch
    | InvalidPhaseForTiming
    | SequenceMismatch
    | WrongCallbackAuthority
    | CapabilityHashMismatch
    | Quote(math: FixedMath.MathError)
    | SequenceOverflow
    | InvalidHelperCapabilityClosure
    | InvalidHelperProgram
    | InvalidHelperState
    | InvalidHelperPayload
    | HelperFailed
    | DeliberateLateCommitFailure
    | InvalidAuthority
    | Refused

  datatype CoreError =
    /** An Anchor account constraint: address, owner, mint, authority or mutability. */
    | AccountConstraint
    | UnexpectedRemainingAccounts
    | TooManyOpaqueAccounts
    | OpaquePayloadTooLarge
    | OpaqueSignerForbidden
    | OpaqueFixedRoleAlias
    | OpaqueCoreOwnedAccount
    | OpaqueExecutableWritable
    | OpaqueProtectedTokenAccountWritable
    | OpaqueNormalizedPrivilegeUnavailable
    | CapabilityHashExpectationMismatch
    | UnsupportedTimingMode
    | InvalidWireEncoding
    | IntentCoreProgramMismatch
    | IntentUserAuthorityMismatch
    | IntentUserInputMismatch
    | IntentInputMintMismatch
    | IntentTokenProgramMismatch
    | DuplicateAccountRole
    | UnsupportedAssetIndex
    | ZeroAmount
    | ArithmeticOverflow
    | IdenticalMints
    | NativeMintUnsupported
    | MintFreezeAuthorityUnsupported
    | InvalidTokenMint
    | InvalidTokenAuthority
    | TokenDelegateUnsupported
    | ExistingTokenDelegate
    | TokenCloseAuthorityUnsupported
    | InvalidDelegatedAmount
    | DelegatedAmountMismatch
    | InvalidSpendAuthority
    | SpendDelegateNotCleared
    | SourceBalanceChangedDuringAuthorization
    | InvalidMarket
    | InvalidDomainAdmission
    | InvalidDomain
    | InvalidDomainVault
    | InvalidFeeLedger
    | InvalidFeeVault
    | InvalidEngineRevision
    | InvalidFeePolicy
    | InvalidEngineStateOwner
    | EngineProgramNotExecutable
    | EngineStateExecutable
    | CoreCannotBeEngine
    | UnexpectedWritablePrivilege
    | UnexpectedSignerPrivilege
    | VaultBelowAccountedBalance
    | InsufficientAccountedLiquidity
    | InsufficientUserSourceBalance
    | UnexpectedSourceDebit
    | UnexpectedDestinationCredit
    | UnexpectedVaultCredit
    | UnexpectedVaultDebit
    | UnexpectedFeeVaultCredit
    | RequestExpired
    | OutputBelowUserMinimum
    | ProtocolFeeAboveUserMaximum
    | TotalDebitAboveUserMaximum
    | DirectInvocationRequired
    | InvalidCallbackAuthority
    | MissingEngineReceipt
    | InvalidEngineReceiptSetter
    | InvalidEngineReceipt
    | EngineReceiptPhaseMismatch
    | EngineReceiptIntentMismatch
    | EngineReceiptExecutionMismatch
    | PrepareSequenceChanged
    | TransitionSequenceMismatch
    | CommitSequenceMismatch
    | CommitOutputMismatch
    /** A failing CPI aborts its caller with the callee's error. */
    | TokenProgramFailed(token: TokenError)
    | EngineFailed(engine: EngineError)
}
