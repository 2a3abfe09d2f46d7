/**
 * The settlement program's other instructions as functions of the store: initialize a market, deposit
 * liquidity, authorize a spend. Checks that the invariant makes redundant are absent.
 */
module Instructions {
  import opened Base
  import opened Bindings
  import opened Keys
  import opened Ledger
  import opened Errors
  import opened Capabilities
  import opened Core
  import Frames

  /** A signature that reaches the program: its own derived addresses never sign for a caller. */
  predicate Signed(m: AccountMeta) {
    m.isSigner && m.key.Plain?
  }

  function ClassicMintVerdict(w: Store, mint: Key): Result<(), CoreError>
    requires IsMint(w, mint)
  {
    if mint == NATIVE_MINT then Err(NativeMintUnsupported)
    else if w[mint].data.hasFreezeAuthority then Err(MintFreezeAuthorityUnsupported)
    else Ok(())
  }

  // ---- Initialize ----

  datatype InitializeIx = InitializeIx(
    initializer: AccountMeta, market: AccountMeta, domain: AccountMeta, feeLedger: AccountMeta,
    mintA: AccountMeta, mintB: AccountMeta, vaultA: AccountMeta, vaultB: AccountMeta, feeVault: AccountMeta,
    engineProgram: AccountMeta, engineState: AccountMeta, tokenProgram: AccountMeta, systemProgram: AccountMeta,
    remaining: nat, marketId: nat, engineRevision: u64)

  function InitializeKeys(ix: InitializeIx): seq<Key> {
    [ix.initializer.key, ix.market.key, ix.domain.key, ix.feeLedger.key, ix.mintA.key, ix.mintB.key,
     ix.vaultA.key, ix.vaultB.key, ix.feeVault.key, ix.engineProgram.key, ix.engineState.key,
     ix.tokenProgram.key, ix.systemProgram.key, CORE]
  }

  /** An account the instruction is about to create at a derived address. */
  predicate ToCreate(w: Store, m: AccountMeta, address: Key) {
    m.isWritable && m.key == address && m.key !in w
  }

  predicate InitializeConstrained(w: Store, ix: InitializeIx) {
    && Signed(ix.initializer) && ix.initializer.isWritable
    && IsMint(w, ix.mintA.key) && IsMint(w, ix.mintB.key)
    && ToCreate(w, ix.market, MarketPda(ix.initializer.key, ix.marketId))
    && ToCreate(w, ix.domain, DomainPda(ix.market.key))
    && ToCreate(w, ix.feeLedger, FeeLedgerPda(ix.market.key, ix.mintA.key))
    && ToCreate(w, ix.vaultA, VaultPda(ix.domain.key, ASSET_A))
    && ToCreate(w, ix.vaultB, VaultPda(ix.domain.key, ASSET_B))
    && ToCreate(w, ix.feeVault, FeeVaultPda(ix.feeLedger.key))
    && ix.tokenProgram.key == TOKEN_PROGRAM && ix.systemProgram.key == SYSTEM_PROGRAM
  }

  function EmptyVault(mint: Key, authority: Key): Account {
    TokenEntry(TokenAccount(mint, authority, 0, None, 0, None))
  }

  /** The six accounts of a fresh market. */
  function Created(w: Store, ix: InitializeIx): Store {
    w[ix.market.key := Account(CORE, false, MarketData(Market(
        EXPERIMENT_VERSION, ix.initializer.key, ix.marketId, ix.engineProgram.key, ix.engineState.key,
        ix.engineRevision,
        ix.mintA.key, ix.mintB.key, PROTOCOL_FEE_BPS, FEE_POLICY_REVISION)))]
     [ix.domain.key := DomainEntry(Domain(
        EXPERIMENT_VERSION, ix.market.key, ix.engineProgram.key, ix.engineState.key, ix.engineRevision, 0, 0))]
     [ix.feeLedger.key := FeeLedgerEntry(FeeLedger(EXPERIMENT_VERSION, ix.market.key, ix.mintA.key, 0))]
     [ix.vaultA.key := EmptyVault(ix.mintA.key, ix.domain.key)]
     [ix.vaultB.key := EmptyVault(ix.mintB.key, ix.domain.key)]
     [ix.feeVault.key := EmptyVault(ix.mintA.key, ix.feeLedger.key)]
  }

  function InitializeSpec(w: Store, ix: InitializeIx): Result<Store, CoreError> {
    if !InitializeConstrained(w, ix) then Err(AccountConstraint)
    else if ix.remaining != 0 then Err(UnexpectedRemainingAccounts)
    else if !NoDuplicates(InitializeKeys(ix)) then Err(DuplicateAccountRole)
    else if ix.engineRevision == 0 then Err(InvalidEngineRevision)
    else
      var _ :- ClassicMintVerdict(w, ix.mintA.key);
      var _ :- ClassicMintVerdict(w, ix.mintB.key);
      if !Executable(w, ix.engineProgram.key) then Err(EngineProgramNotExecutable)
      else if ix.engineProgram.isWritable then Err(UnexpectedWritablePrivilege)
      else if Executable(w, ix.engineState.key) then Err(EngineStateExecutable)
      else if OwnerOf(w, ix.engineState.key) != ix.engineProgram.key then Err(InvalidEngineStateOwner)
      else if ix.mintA.isWritable || ix.mintB.isWritable
              || ix.tokenProgram.isWritable || ix.systemProgram.isWritable then
        Err(UnexpectedWritablePrivilege)
      else Ok(Created(w, ix))
  }

  // ---- Deposit ----

  datatype DepositIx = DepositIx(
    provider: AccountMeta, market: AccountMeta, domain: AccountMeta, mint: AccountMeta, source: AccountMeta,
    vault: AccountMeta, tokenProgram: AccountMeta, remaining: nat, assetIndex: nat, amount: u64)

  function DepositKeys(ix: DepositIx): seq<Key> {
    [ix.provider.key, ix.market.key, ix.domain.key, ix.mint.key, ix.source.key, ix.vault.key, ix.tokenProgram.key, CORE]
  }

  predicate DepositConstrained(w: Store, ix: DepositIx) {
    && Signed(ix.provider)
    && IsMarket(w, ix.market.key)
    && ix.market.key == MarketPda(MarketAt(w, ix.market.key).initializer, MarketAt(w, ix.market.key).marketId)
    && ix.domain.isWritable && IsDomain(w, ix.domain.key) && ix.domain.key == DomainPda(ix.market.key)
    && IsMint(w, ix.mint.key)
    && ix.source.isWritable && IsToken(w, ix.source.key) && ix.vault.isWritable && IsToken(w, ix.vault.key)
    && ix.tokenProgram.key == TOKEN_PROGRAM
  }

  function AccountedOf(d: Domain, assetIndex: nat): u64 {
    if assetIndex == ASSET_A then d.accountedA else d.accountedB
  }

  function WithAccounted(d: Domain, assetIndex: nat, accounted: u64): Domain {
    if assetIndex == ASSET_A then d.(accountedA := accounted) else d.(accountedB := accounted)
  }

  function ProtectedVerdict(t: TokenAccount, mint: Key, authority: Key): Result<(), CoreError> {
    if t.mint != mint then Err(InvalidTokenMint)
    else if t.owner != authority then Err(InvalidTokenAuthority)
    else if t.delegate != None then Err(TokenDelegateUnsupported)
    else if t.closeAuthority != None then Err(TokenCloseAuthorityUnsupported)
    else Ok(())
  }

  function DepositVerdict(w: Store, ix: DepositIx): Result<(), CoreError> {
    if !DepositConstrained(w, ix) then Err(AccountConstraint)
    else if ix.remaining != 0 then Err(UnexpectedRemainingAccounts)
    else if ix.amount == 0 then Err(CoreError.ZeroAmount)
    else if !NoDuplicates(DepositKeys(ix)) then Err(DuplicateAccountRole)
    else
      var _ :- ClassicMintVerdict(w, ix.mint.key);
      var m := MarketAt(w, ix.market.key);
      if ix.market.isWritable || ix.mint.isWritable || ix.tokenProgram.isWritable then Err(UnexpectedWritablePrivilege)
      else if ix.assetIndex != ASSET_A && ix.assetIndex != ASSET_B then Err(UnsupportedAssetIndex)
      else if ix.mint.key != (if ix.assetIndex == ASSET_A then m.mintA else m.mintB) then Err(InvalidTokenMint)
      else if ix.vault.key != VaultPda(ix.domain.key, ix.assetIndex) then Err(InvalidDomainVault)
      else ProtectedVerdict(TokenAt(w, ix.source.key), ix.mint.key, ix.provider.key)
  }

  /** The deposited amount moves from the source to the vault and into the accounting. */
  function Deposited(w: Store, ix: DepositIx): Store
    requires IsDomain(w, ix.domain.key) && AccountedOf(DomainAt(w, ix.domain.key), ix.assetIndex) + ix.amount <= U64_MAX
    requires IsToken(w, ix.source.key) && ix.amount <= TokenAt(w, ix.source.key).amount
    requires IsToken(w, ix.vault.key) && TokenAt(w, ix.vault.key).amount + ix.amount <= U64_MAX
  {
    var d := DomainAt(w, ix.domain.key);
    w[ix.source.key := TokenEntry(Spent(TokenAt(w, ix.source.key), ix.amount))]
     [ix.vault.key := TokenEntry(Credited(TokenAt(w, ix.vault.key), ix.amount))]
     [ix.domain.key := DomainEntry(WithAccounted(d, ix.assetIndex, AccountedOf(d, ix.assetIndex) + ix.amount))]
  }

  ghost function DepositSpec(w: Store, ix: DepositIx): Result<Store, CoreError>
    requires Inv(w)
  {
    hide Inv, DepositVerdict;
    var _ :- DepositVerdict(w, ix);
    DepositRoles(w, ix);
    if AccountedOf(DomainAt(w, ix.domain.key), ix.assetIndex) + ix.amount > U64_MAX then Err(ArithmeticOverflow)
    else if TokenAt(w, ix.source.key).amount < ix.amount then Err(TokenProgramFailed(InsufficientFunds))
    else Ok(Deposited(w, ix))
  }

  /** An accepted deposit goes from an ordinary account into a solvent vault of the same mint. */
  lemma DepositRoles(w: Store, ix: DepositIx)
    requires Inv(w) && DepositVerdict(w, ix).Ok?
    ensures DepositConstrained(w, ix) && MarketOk(w, ix.market.key)
    ensures IsDomain(w, ix.domain.key) && IsToken(w, ix.source.key) && IsToken(w, ix.vault.key)
    ensures ix.source.key != ix.vault.key
    ensures VaultOk(w, ix.vault.key, ix.mint.key, ix.domain.key, AccountedOf(DomainAt(w, ix.domain.key), ix.assetIndex))
    ensures ProtectedVerdict(TokenAt(w, ix.source.key), ix.mint.key, ix.provider.key).Ok?
    ensures ix.vault.key == VaultPda(DomainPda(ix.market.key), ix.assetIndex)
    ensures ix.assetIndex == ASSET_A || ix.assetIndex == ASSET_B
    ensures TokenAt(w, ix.source.key).amount + TokenAt(w, ix.vault.key).amount <= U64_MAX
  {
    hide SupplyOk, NoDuplicates;
    assert MarketOk(w, ix.market.key);
    Frames.PairFits(w, ix.source.key, ix.vault.key);
  }

  // ---- Authorize ----

  /** `binding` is the decoded wire intent, `None` when the bytes do not decode. */
  datatype AuthorizeIx = AuthorizeIx(
    user: AccountMeta, source: AccountMeta, mint: AccountMeta, spendAuthority: AccountMeta, tokenProgram: AccountMeta,
    remaining: nat, topLevel: bool, binding: Option<Intent>)

  function AuthorizeKeys(ix: AuthorizeIx): seq<Key> {
    [ix.user.key, ix.source.key, ix.mint.key, ix.spendAuthority.key, ix.tokenProgram.key, CORE]
  }

  predicate AuthorizeConstrained(w: Store, ix: AuthorizeIx) {
    && Signed(ix.user)
    && IsMint(w, ix.mint.key)
    && ix.source.isWritable && IsToken(w, ix.source.key)
    && TokenAt(w, ix.source.key).mint == ix.mint.key && TokenAt(w, ix.source.key).owner == ix.user.key
    && ix.tokenProgram.key == TOKEN_PROGRAM
  }

  /** The bounds an intent places on itself, and the exact debit it allows. */
  function IntentVerdict(b: Intent, slot: u64): Result<u64, CoreError> {
    if b.coreProgram != CORE then Err(IntentCoreProgramMismatch)
    else if b.amountIn == 0 then Err(CoreError.ZeroAmount)
    else if b.protocolFee > b.maxProtocolFee then Err(ProtocolFeeAboveUserMaximum)
    else if b.amountIn + b.protocolFee > U64_MAX then Err(ArithmeticOverflow)
    else if b.amountIn + b.protocolFee > b.maxTotalInputDebit then Err(TotalDebitAboveUserMaximum)
    else if slot > b.expiresAtSlot then Err(RequestExpired)
    else Ok(b.amountIn + b.protocolFee)
  }

  function IntentRoles(ix: AuthorizeIx, b: Intent): Result<(), CoreError> {
    if !NoDuplicates(AuthorizeKeys(ix)) then Err(DuplicateAccountRole)
    else if b.userAuthority != ix.user.key then Err(IntentUserAuthorityMismatch)
    else if b.userInput != ix.source.key then Err(IntentUserInputMismatch)
    else if b.mintIn != ix.mint.key then Err(IntentInputMintMismatch)
    else if b.tokenProgram != ix.tokenProgram.key then Err(IntentTokenProgramMismatch)
    else if ix.mint.isWritable || ix.spendAuthority.isWritable || ix.tokenProgram.isWritable then
      Err(UnexpectedWritablePrivilege)
    else if ix.source.isSigner || ix.mint.isSigner || ix.spendAuthority.isSigner || ix.tokenProgram.isSigner then
      Err(UnexpectedSignerPrivilege)
    else Ok(())
  }

  function AuthorizeVerdict(w: Store, ix: AuthorizeIx, slot: u64): Result<u64, CoreError> {
    if !AuthorizeConstrained(w, ix) then Err(AccountConstraint)
    else if !ix.topLevel then Err(DirectInvocationRequired)
    else if ix.remaining != 0 then Err(UnexpectedRemainingAccounts)
    else if ix.binding == None || !KnownTiming(ix.binding.value.timingMode) then Err(InvalidWireEncoding)
    else
      var b := ix.binding.value;
      var debit :- IntentVerdict(b, slot);
      var _ :- IntentRoles(ix, b);
      var t := TokenAt(w, ix.source.key);
      if Executable(w, ix.spendAuthority.key) || ix.spendAuthority.key != SpendPda(ix.source.key, IntentDigest(b)) then
        Err(InvalidSpendAuthority)
      else
        var _ :- ClassicMintVerdict(w, ix.mint.key);
        if t.delegate != None then Err(ExistingTokenDelegate)
        else if t.closeAuthority != None then Err(TokenCloseAuthorityUnsupported)
        else if t.amount < debit then Err(InsufficientUserSourceBalance)
        else Ok(debit)
  }

  function Delegated(t: TokenAccount, delegate: Key, amount: u64): TokenAccount {
    t.(delegate := Some(delegate), delegatedAmount := amount)
  }

  /** The source delegates exactly the intent's debit to the intent's own spend address. */
  function AuthorizeSpec(w: Store, ix: AuthorizeIx, slot: u64): Result<Store, CoreError> {
    hide AuthorizeVerdict;
    var debit :- AuthorizeVerdict(w, ix, slot);
    AuthorizeFacts(w, ix, slot);
    Ok(w[ix.source.key := TokenEntry(Delegated(TokenAt(w, ix.source.key), ix.spendAuthority.key, debit))])
  }

  lemma AuthorizeFacts(w: Store, ix: AuthorizeIx, slot: u64)
    requires AuthorizeVerdict(w, ix, slot).Ok?
    ensures AuthorizeConstrained(w, ix) && ix.binding.Some? && KnownTiming(ix.binding.value.timingMode)
    ensures var b := ix.binding.value;
            && IntentVerdict(b, slot) == AuthorizeVerdict(w, ix, slot) && IntentRoles(ix, b).Ok?
            && ix.spendAuthority.key == SpendPda(ix.source.key, IntentDigest(b))
    ensures TokenAt(w, ix.source.key).delegate == None && TokenAt(w, ix.source.key).closeAuthority == None
  {
    hide NoDuplicates;
  }
}
