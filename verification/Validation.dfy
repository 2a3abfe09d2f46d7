/**
 * The account checks of the settlement program, all of them, and the proof that the invariant makes
 * most of them redundant: exactly the checks that the specifications leave out.
 */
module Validation {
  import opened Base
  import opened Keys
  import opened Ledger
  import opened Errors
  import opened Capabilities
  import opened Core
  import opened Instructions

  function ValidateMarketDomain(marketKey: Key, market: Market, domainKey: Key, domain: Domain): Result<(), CoreError> {
    if market.version != EXPERIMENT_VERSION then Err(InvalidMarket)
    else if domain.version != EXPERIMENT_VERSION then Err(InvalidDomain)
    else if market.feeBps != PROTOCOL_FEE_BPS || market.feePolicyRevision != FEE_POLICY_REVISION then
      Err(InvalidFeePolicy)
    else if marketKey != MarketPda(market.initializer, market.marketId) then Err(InvalidMarket)
    else if domain.market != marketKey then Err(InvalidDomainAdmission)
    else if domainKey != DomainPda(marketKey) then Err(InvalidDomain)
    else if domain.engineProgram != market.engineProgram then Err(InvalidDomainAdmission)
    else if domain.engineState != market.engineState then Err(InvalidDomainAdmission)
    else if domain.engineRevision != market.engineRevision then Err(InvalidEngineRevision)
    else Ok(())
  }

  function ValidateFeeLedger(marketKey: Key, market: Market, feeLedgerKey: Key, feeLedger: FeeLedger)
    : Result<(), CoreError>
  {
    if feeLedger.version != EXPERIMENT_VERSION || feeLedger.market != marketKey || feeLedger.mintA != market.mintA
       || feeLedgerKey != FeeLedgerPda(marketKey, market.mintA) then Err(InvalidFeeLedger)
    else Ok(())
  }

  function ValidateProtectedTokenAccount(t: TokenAccount, mint: Key, authority: Key): Result<(), CoreError> {
    if t.mint != mint then Err(InvalidTokenMint)
    else if t.owner != authority then Err(InvalidTokenAuthority)
    else if t.delegate != None then Err(TokenDelegateUnsupported)
    else if t.delegatedAmount != 0 then Err(InvalidDelegatedAmount)
    else if t.closeAuthority != None then Err(TokenCloseAuthorityUnsupported)
    else Ok(())
  }

  function ValidateUserSourceBeforeAuthorization(t: TokenAccount, mint: Key, authority: Key): Result<(), CoreError> {
    if t.mint != mint then Err(InvalidTokenMint)
    else if t.owner != authority then Err(InvalidTokenAuthority)
    else if t.delegate != None then Err(ExistingTokenDelegate)
    else if t.delegatedAmount != 0 then Err(InvalidDelegatedAmount)
    else if t.closeAuthority != None then Err(TokenCloseAuthorityUnsupported)
    else Ok(())
  }

  function ValidateDelegatedSpendSource(t: TokenAccount, mint: Key, spendAuthority: Key, exactTotalDebit: u64)
    : Result<(), CoreError>
  {
    if t.mint != mint then Err(InvalidTokenMint) else DelegateVerdict(t, spendAuthority, exactTotalDebit)
  }

  function RequireRawCoversAccounted(raw: u64, accounted: u64): Result<(), CoreError> {
    if raw < accounted then Err(VaultBelowAccountedBalance) else Ok(())
  }

  function ExactDebit(before: u64, after: u64, expected: u64, error: CoreError): Result<(), CoreError> {
    if before < after then Err(ArithmeticOverflow) else if before - after != expected then Err(error) else Ok(())
  }

  function ExactCredit(before: u64, after: u64, expected: u64, error: CoreError): Result<(), CoreError> {
    if after < before then Err(ArithmeticOverflow) else if after - before != expected then Err(error) else Ok(())
  }

  /** The account checks, exactly: the records agree with each other and with their addresses. */
  lemma RecordsExactly(marketKey: Key, market: Market, domainKey: Key, domain: Domain, feeLedgerKey: Key,
                       feeLedger: FeeLedger)
    ensures ValidateMarketDomain(marketKey, market, domainKey, domain).Ok? <==>
              && market.version == 0 && market.feeBps == 30 && market.feePolicyRevision == 0
              && marketKey == MarketPda(market.initializer, market.marketId) && domainKey == DomainPda(marketKey)
              && domain == Domain(0, marketKey, market.engineProgram, market.engineState, market.engineRevision,
                                  domain.accountedA, domain.accountedB)
    ensures ValidateFeeLedger(marketKey, market, feeLedgerKey, feeLedger).Ok? <==>
              && feeLedgerKey == FeeLedgerPda(marketKey, market.mintA)
              && feeLedger == FeeLedger(0, marketKey, market.mintA, feeLedger.accountedFeeA)
  {
  }

  /** A token account is its owner's alone, and a spending source delegates exactly the debit. */
  lemma TokensExactly(t: TokenAccount, mint: Key, authority: Key, exactTotalDebit: u64)
    ensures ValidateProtectedTokenAccount(t, mint, authority).Ok?
       <==> t == TokenAccount(mint, authority, t.amount, None, 0, None)
    ensures ValidateUserSourceBeforeAuthorization(t, mint, authority).Ok?
       <==> t == TokenAccount(mint, authority, t.amount, None, 0, None)
    ensures ValidateDelegatedSpendSource(t, mint, authority, exactTotalDebit).Ok?
       <==> t == TokenAccount(mint, t.owner, t.amount, Some(authority), exactTotalDebit, None)
  {
  }

  /** And a balance moves by exactly what it should. */
  lemma DeltasExactly(before: u64, after: u64, expected: u64, error: CoreError)
    ensures ExactDebit(before, after, expected, error).Ok? <==> before == after + expected
    ensures ExactCredit(before, after, expected, error).Ok? <==> after == before + expected
    ensures RequireRawCoversAccounted(before, after).Ok? <==> after <= before
  {
  }

  /** The accounts of an execution as they were loaded when the instruction began. */
  datatype Cache = Cache(
    market: Market, domain: Domain, feeLedger: FeeLedger,
    source: TokenAccount, destination: TokenAccount, vaultA: TokenAccount, vaultB: TokenAccount, feeVault: TokenAccount)

  function Load(w: Store, e: Envelope): Cache
    requires Constrained(w, e)
  {
    Cache(MarketAt(w, e.market.key), DomainAt(w, e.domain.key), FeeLedgerAt(w, e.feeLedger.key),
          TokenAt(w, e.source.key), TokenAt(w, e.destination.key),
          TokenAt(w, e.vaultA.key), TokenAt(w, e.vaultB.key), TokenAt(w, e.feeVault.key))
  }

  /** The three vaults' own checks. */
  function ValidateVaults(c: Cache, e: Envelope): Result<(), CoreError> {
    var _ :- ValidateProtectedTokenAccount(c.vaultA, e.mintA.key, e.domain.key);
    var _ :- ValidateProtectedTokenAccount(c.vaultB, e.mintB.key, e.domain.key);
    var _ :- ValidateProtectedTokenAccount(c.feeVault, e.mintA.key, e.feeLedger.key);
    var _ :- RequireRawCoversAccounted(c.vaultA.amount, c.domain.accountedA);
    var _ :- RequireRawCoversAccounted(c.vaultB.amount, c.domain.accountedB);
    RequireRawCoversAccounted(c.feeVault.amount, c.feeLedger.accountedFeeA)
  }

  /** The addresses of an execution's records and vaults. */
  function ValidateRecords(c: Cache, e: Envelope): Result<(), CoreError> {
    var _ :- ValidateMarketDomain(e.market.key, c.market, e.domain.key, c.domain);
    var _ :- ValidateFeeLedger(e.market.key, c.market, e.feeLedger.key, c.feeLedger);
    if VaultPda(e.domain.key, ASSET_A) != e.vaultA.key then Err(InvalidDomainVault)
    else if VaultPda(e.domain.key, ASSET_B) != e.vaultB.key then Err(InvalidDomainVault)
    else if FeeVaultPda(e.feeLedger.key) != e.feeVault.key then Err(InvalidFeeVault)
    else Ok(())
  }

  /** `validate_execution_envelope`. */
  function ValidateExecutionEnvelope(w: Store, c: Cache, e: Envelope): Result<(), CoreError>
    requires IsMint(w, e.mintA.key) && IsMint(w, e.mintB.key)
  {
    var _ :- ValidateRecords(c, e);
    if !Executable(w, e.engineProgram.key) then Err(EngineProgramNotExecutable)
    else if e.engineProgram.key == CORE then Err(CoreCannotBeEngine)
    else if Executable(w, e.engineState.key) then Err(EngineStateExecutable)
    else if OwnerOf(w, e.engineState.key) != e.engineProgram.key then Err(InvalidEngineStateOwner)
    else if UnexpectedlyWritable(e) then Err(UnexpectedWritablePrivilege)
    else if !e.engineState.isWritable then Err(UnexpectedWritablePrivilege)
    else if UnexpectedlySigned(e) then Err(UnexpectedSignerPrivilege)
    else if Executable(w, e.spendAuthority.key) then Err(InvalidSpendAuthority)
    else if Executable(w, e.primaryCallback.key) || Executable(w, e.commitCallback.key) then
      Err(InvalidCallbackAuthority)
    else
      var _ :- ClassicMintVerdict(w, e.mintA.key);
      var _ :- ClassicMintVerdict(w, e.mintB.key);
      if c.destination.mint != e.mintB.key then Err(InvalidTokenMint)
      else ValidateVaults(c, e)
  }

  /**
   * In every reachable store the envelope checks reduce to eight: records, vault addresses, vault
   * authorities and delegates, mints, and raw-covers-accounted never fire.
   */
  lemma EnvelopeChecksReduce(w: Store, e: Envelope)
    requires Inv(w) && Constrained(w, e) && NoDuplicates(EnvelopeKeys(e))
    ensures ValidateExecutionEnvelope(w, Load(w, e), e) == EnvelopeVerdict(w, e)
    ensures ValidateRecords(Load(w, e), e).Ok? && ValidateVaults(Load(w, e), e).Ok?
  {
    hide SupplyOk, TokenOk, NoDuplicates, EnvelopeKeys, UnexpectedlyWritable, UnexpectedlySigned;
    assert MarketOk(w, e.market.key);
  }

  /** The deposit's records and vault never fail their checks in a reachable store. */
  lemma DepositChecksReduce(w: Store, ix: DepositIx)
    requires Inv(w) && DepositVerdict(w, ix).Ok?
    ensures ValidateMarketDomain(ix.market.key, MarketAt(w, ix.market.key), ix.domain.key,
                                 DomainAt(w, ix.domain.key)).Ok?
    ensures ValidateProtectedTokenAccount(TokenAt(w, ix.source.key), ix.mint.key, ix.provider.key).Ok?
    ensures ValidateProtectedTokenAccount(TokenAt(w, ix.vault.key), ix.mint.key, ix.domain.key).Ok?
    ensures RequireRawCoversAccounted(TokenAt(w, ix.vault.key).amount,
                                      AccountedOf(DomainAt(w, ix.domain.key), ix.assetIndex)).Ok?
  {
    hide SupplyOk, NoDuplicates;
    DepositRoles(w, ix);
    assert TokenOk(w, ix.source.key);
  }
}
