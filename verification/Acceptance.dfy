/**
 * The instructions without their verdicts: exactly which deposits, authorizations, initializations and
 * executions are accepted, what an accepted one leaves, and the fault that each refusal names.
 */
module Acceptance {
  import opened Base
  import opened Bindings
  import opened Keys
  import opened Ledger
  import opened Errors
  import opened Capabilities
  import opened Core
  import opened Instructions
  import opened Lifecycle
  import opened Runs

  /** An account of the token program that `owner` holds in `mint`, and that nobody else may spend or close. */
  predicate OwnedAlone(w: Store, k: Key, mint: Key, owner: Key) {
    && IsToken(w, k) && TokenAt(w, k).mint == mint && TokenAt(w, k).owner == owner
    && TokenAt(w, k).delegate == None && TokenAt(w, k).closeAuthority == None
  }

  predicate Usable(w: Store, mint: Key) {
    IsMint(w, mint) && mint != NATIVE_MINT && !w[mint].data.hasFreezeAuthority
  }

  // ---- Deposits ----

  /** The accounts are what the instruction declares them to be. */
  predicate DepositAccounts(w: Store, ix: DepositIx) {
    && ix.provider.isSigner && ix.provider.key.Plain?
    && IsMarket(w, ix.market.key)
    && ix.market.key == MarketPda(MarketAt(w, ix.market.key).initializer, MarketAt(w, ix.market.key).marketId)
    && IsDomain(w, ix.domain.key) && ix.domain.key == DomainPda(ix.market.key) && ix.domain.isWritable
    && IsMint(w, ix.mint.key) && ix.tokenProgram.key == TOKEN_PROGRAM
    && IsToken(w, ix.source.key) && ix.source.isWritable && IsToken(w, ix.vault.key) && ix.vault.isWritable
  }

  predicate DepositRolesDiffer(ix: DepositIx) {
    NoDuplicates([ix.provider.key, ix.market.key, ix.domain.key, ix.mint.key, ix.source.key, ix.vault.key,
                  ix.tokenProgram.key, CORE])
  }

  /** The asset is the market's A or B, and mint and vault are that asset's. */
  predicate DepositAsset(w: Store, ix: DepositIx)
    requires IsMarket(w, ix.market.key)
  {
    || (ix.assetIndex == 0 && ix.mint.key == MarketAt(w, ix.market.key).mintA
        && ix.vault.key == VaultPda(ix.domain.key, 0))
    || (ix.assetIndex == 1 && ix.mint.key == MarketAt(w, ix.market.key).mintB
        && ix.vault.key == VaultPda(ix.domain.key, 1))
  }

  /** The provider has the amount, and the accounting of the asset has room for it. */
  predicate DepositFits(w: Store, ix: DepositIx)
    requires IsDomain(w, ix.domain.key) && IsToken(w, ix.source.key)
  {
    && 0 < ix.amount <= TokenAt(w, ix.source.key).amount
    && (ix.assetIndex == 0 ==> DomainAt(w, ix.domain.key).accountedA + ix.amount <= U64_MAX)
    && (ix.assetIndex == 1 ==> DomainAt(w, ix.domain.key).accountedB + ix.amount <= U64_MAX)
  }

  predicate DepositAccepted(w: Store, ix: DepositIx) {
    && DepositAccounts(w, ix) && ix.remaining == 0 && DepositRolesDiffer(ix) && Usable(w, ix.mint.key)
    && !ix.market.isWritable && !ix.mint.isWritable && !ix.tokenProgram.isWritable
    && DepositAsset(w, ix) && OwnedAlone(w, ix.source.key, ix.mint.key, ix.provider.key) && DepositFits(w, ix)
  }

  /** The amount leaves the source and enters the vault and the accounting of its asset; nothing else changes. */
  ghost predicate DepositLeaves(w: Store, w': Store, ix: DepositIx)
    requires IsDomain(w, ix.domain.key) && IsToken(w, ix.source.key) && IsToken(w, ix.vault.key)
  {
    && IsToken(w', ix.source.key) && IsToken(w', ix.vault.key) && IsDomain(w', ix.domain.key)
    && !w'[ix.source.key].executable && !w'[ix.vault.key].executable && !w'[ix.domain.key].executable
    && var s, v, d := TokenAt(w, ix.source.key), TokenAt(w, ix.vault.key), DomainAt(w, ix.domain.key);
    && ix.amount <= s.amount && v.amount + ix.amount <= U64_MAX
    && TokenAt(w', ix.source.key) == s.(amount := s.amount - ix.amount)
    && TokenAt(w', ix.vault.key) == v.(amount := v.amount + ix.amount)
    && var d' := DomainAt(w', ix.domain.key);
    && d' == d.(accountedA := d'.accountedA, accountedB := d'.accountedB)
    && d'.accountedA == d.accountedA + (if ix.assetIndex == 0 then ix.amount else 0)
    && d'.accountedB == d.accountedB + (if ix.assetIndex == 1 then ix.amount else 0)
    && forall k :: k != ix.source.key && k != ix.vault.key && k != ix.domain.key ==> SameAt(w, w', k)
  }

  /** What is wrong with a deposit refused for this reason. */
  predicate DepositFault(w: Store, ix: DepositIx, fault: CoreError) {
    match fault
    case AccountConstraint => !DepositAccounts(w, ix)
    case UnexpectedRemainingAccounts => ix.remaining != 0
    case ZeroAmount => ix.amount == 0
    case DuplicateAccountRole => !DepositRolesDiffer(ix)
    case NativeMintUnsupported => ix.mint.key == NATIVE_MINT
    case MintFreezeAuthorityUnsupported => IsMint(w, ix.mint.key) && w[ix.mint.key].data.hasFreezeAuthority
    case UnexpectedWritablePrivilege => ix.market.isWritable || ix.mint.isWritable || ix.tokenProgram.isWritable
    case UnsupportedAssetIndex => ix.assetIndex > 1
    case InvalidTokenMint =>
      && IsMarket(w, ix.market.key) && IsToken(w, ix.source.key)
      && var m := MarketAt(w, ix.market.key);
      && (|| ix.mint.key != (if ix.assetIndex == 0 then m.mintA else m.mintB)
          || TokenAt(w, ix.source.key).mint != ix.mint.key)
    case InvalidDomainVault => ix.vault.key != VaultPda(ix.domain.key, ix.assetIndex)
    case InvalidTokenAuthority => IsToken(w, ix.source.key) && TokenAt(w, ix.source.key).owner != ix.provider.key
    case TokenDelegateUnsupported => IsToken(w, ix.source.key) && TokenAt(w, ix.source.key).delegate != None
    case TokenCloseAuthorityUnsupported => IsToken(w, ix.source.key) && TokenAt(w, ix.source.key).closeAuthority != None
    case ArithmeticOverflow =>
      && IsDomain(w, ix.domain.key)
      && var d := DomainAt(w, ix.domain.key);
         (if ix.assetIndex == 0 then d.accountedA else d.accountedB) + ix.amount > U64_MAX
    case TokenProgramFailed(e) =>
      e == InsufficientFunds && IsToken(w, ix.source.key) && TokenAt(w, ix.source.key).amount < ix.amount
    case _ => false
  }

  lemma DepositDeclared(w: Store, ix: DepositIx)
    ensures DepositConstrained(w, ix) <==> DepositAccounts(w, ix)
    ensures NoDuplicates(DepositKeys(ix)) <==> DepositRolesDiffer(ix)
  {
    hide NoDuplicates;
  }

  lemma DepositVetted(w: Store, ix: DepositIx)
    ensures DepositVerdict(w, ix).Ok? <==>
              && DepositAccounts(w, ix) && ix.remaining == 0 && ix.amount > 0 && DepositRolesDiffer(ix)
              && Usable(w, ix.mint.key) && !ix.market.isWritable && !ix.mint.isWritable && !ix.tokenProgram.isWritable
              && DepositAsset(w, ix) && OwnedAlone(w, ix.source.key, ix.mint.key, ix.provider.key)
  {
    hide DepositConstrained, NoDuplicates, DepositKeys, DepositRolesDiffer;
    DepositDeclared(w, ix);
  }

  lemma DepositFaulted(w: Store, ix: DepositIx)
    ensures DepositVerdict(w, ix).Err? ==> DepositFault(w, ix, DepositVerdict(w, ix).error)
  {
    hide DepositConstrained, NoDuplicates, DepositKeys, DepositRolesDiffer;
    DepositDeclared(w, ix);
  }

  /** Deposits, exactly: in either asset, accepted if and only if all is as declared, and then moved and accounted. */
  lemma DepositsExactly(w: Store, ix: DepositIx)
    requires Inv(w)
    ensures DepositSpec(w, ix).Ok? <==> DepositAccepted(w, ix)
    ensures DepositSpec(w, ix).Ok? ==> DepositAccounts(w, ix) && DepositLeaves(w, DepositSpec(w, ix).value, ix)
    ensures DepositSpec(w, ix).Err? ==> DepositFault(w, ix, DepositSpec(w, ix).error)
  {
    hide Inv, DepositVerdict, DepositRolesDiffer;
    DepositVetted(w, ix);
    DepositFaulted(w, ix);
    if DepositVerdict(w, ix).Ok? {
      DepositRoles(w, ix);
    }
    if DepositSpec(w, ix).Ok? {
      DepositEffect(w, ix);
    }
  }

  // ---- Authorizations ----

  predicate AuthorizeAccounts(w: Store, ix: AuthorizeIx) {
    && ix.user.isSigner && ix.user.key.Plain? && IsMint(w, ix.mint.key) && ix.tokenProgram.key == TOKEN_PROGRAM
    && IsToken(w, ix.source.key) && ix.source.isWritable
    && TokenAt(w, ix.source.key).mint == ix.mint.key && TokenAt(w, ix.source.key).owner == ix.user.key
  }

  predicate AuthorizeRolesDiffer(ix: AuthorizeIx) {
    NoDuplicates([ix.user.key, ix.source.key, ix.mint.key, ix.spendAuthority.key, ix.tokenProgram.key, CORE])
  }

  /** The intent is decodable, for this program, within its own bounds and not yet expired. */
  predicate IntentInOrder(b: Intent, slot: u64) {
    && (b.timingMode == 0 || b.timingMode == 1) && b.coreProgram == CORE && 0 < b.amountIn
    && b.protocolFee <= b.maxProtocolFee && b.amountIn + b.protocolFee <= b.maxTotalInputDebit
    && slot <= b.expiresAtSlot
  }

  /** And it names the accounts at hand. */
  predicate IntentNames(b: Intent, ix: AuthorizeIx) {
    && b.userAuthority == ix.user.key && b.userInput == ix.source.key && b.mintIn == ix.mint.key
    && b.tokenProgram == TOKEN_PROGRAM
    && ix.spendAuthority.key == SpendPda(ix.source.key, Sha(IntentPreimage(b)))
  }

  predicate AuthorizePrivileged(ix: AuthorizeIx) {
    && !ix.mint.isWritable && !ix.spendAuthority.isWritable && !ix.tokenProgram.isWritable
    && !ix.source.isSigner && !ix.mint.isSigner && !ix.spendAuthority.isSigner && !ix.tokenProgram.isSigner
  }

  predicate AuthorizeAccepted(w: Store, ix: AuthorizeIx, slot: u64) {
    && AuthorizeAccounts(w, ix) && ix.topLevel && ix.remaining == 0 && AuthorizeRolesDiffer(ix)
    && ix.binding.Some? && IntentInOrder(ix.binding.value, slot) && IntentNames(ix.binding.value, ix)
    && AuthorizePrivileged(ix) && !Executable(w, ix.spendAuthority.key) && Usable(w, ix.mint.key)
    && TokenAt(w, ix.source.key).delegate == None && TokenAt(w, ix.source.key).closeAuthority == None
    && ix.binding.value.amountIn + ix.binding.value.protocolFee <= TokenAt(w, ix.source.key).amount
  }

  /** The source delegates the intent's debit to the intent's own spend address; nothing else changes. */
  ghost predicate AuthorizeLeaves(w: Store, w': Store, ix: AuthorizeIx)
    requires IsToken(w, ix.source.key) && ix.binding.Some?
  {
    var b := ix.binding.value;
    && IsToken(w', ix.source.key) && !w'[ix.source.key].executable
    && b.amountIn + b.protocolFee <= U64_MAX
    && TokenAt(w', ix.source.key)
       == TokenAt(w, ix.source.key).(delegate := Some(SpendPda(ix.source.key, Sha(IntentPreimage(b)))),
                                     delegatedAmount := b.amountIn + b.protocolFee)
    && forall k :: k != ix.source.key ==> SameAt(w, w', k)
  }

  /** What is wrong with the terms of an intent, or with who presents it. */
  predicate IntentFault(b: Intent, ix: AuthorizeIx, slot: u64, fault: CoreError) {
    match fault
    case InvalidWireEncoding => b.timingMode > 1
    case IntentCoreProgramMismatch => b.coreProgram != CORE
    case ZeroAmount => b.amountIn == 0
    case ProtocolFeeAboveUserMaximum => b.protocolFee > b.maxProtocolFee
    case ArithmeticOverflow => b.amountIn + b.protocolFee > U64_MAX
    case TotalDebitAboveUserMaximum => b.amountIn + b.protocolFee > b.maxTotalInputDebit
    case RequestExpired => slot > b.expiresAtSlot
    case IntentUserAuthorityMismatch => b.userAuthority != ix.user.key
    case IntentUserInputMismatch => b.userInput != ix.source.key
    case IntentInputMintMismatch => b.mintIn != ix.mint.key
    case IntentTokenProgramMismatch => b.tokenProgram != ix.tokenProgram.key
    case _ => false
  }

  /** What is wrong with the accounts an authorization presents. */
  predicate PresentedFault(w: Store, ix: AuthorizeIx, fault: CoreError) {
    match fault
    case AccountConstraint => !AuthorizeAccounts(w, ix)
    case DirectInvocationRequired => !ix.topLevel
    case UnexpectedRemainingAccounts => ix.remaining != 0
    case InvalidWireEncoding => ix.binding == None
    case DuplicateAccountRole => !AuthorizeRolesDiffer(ix)
    case UnexpectedWritablePrivilege => ix.mint.isWritable || ix.spendAuthority.isWritable || ix.tokenProgram.isWritable
    case UnexpectedSignerPrivilege =>
      ix.source.isSigner || ix.mint.isSigner || ix.spendAuthority.isSigner || ix.tokenProgram.isSigner
    case InvalidSpendAuthority =>
      || Executable(w, ix.spendAuthority.key)
      || (ix.binding.Some? && ix.spendAuthority.key != SpendPda(ix.source.key, Sha(IntentPreimage(ix.binding.value))))
    case NativeMintUnsupported => ix.mint.key == NATIVE_MINT
    case MintFreezeAuthorityUnsupported => IsMint(w, ix.mint.key) && w[ix.mint.key].data.hasFreezeAuthority
    case ExistingTokenDelegate => IsToken(w, ix.source.key) && TokenAt(w, ix.source.key).delegate != None
    case TokenCloseAuthorityUnsupported => IsToken(w, ix.source.key) && TokenAt(w, ix.source.key).closeAuthority != None
    case InsufficientUserSourceBalance =>
      && IsToken(w, ix.source.key) && ix.binding.Some?
      && TokenAt(w, ix.source.key).amount < ix.binding.value.amountIn + ix.binding.value.protocolFee
    case _ => false
  }

  /** What is wrong with an authorization refused for this reason. */
  predicate AuthorizeFault(w: Store, ix: AuthorizeIx, slot: u64, fault: CoreError) {
    || PresentedFault(w, ix, fault)
    || (ix.binding.Some? && IntentFault(ix.binding.value, ix, slot, fault))
  }

  lemma AuthorizeDeclared(w: Store, ix: AuthorizeIx)
    ensures AuthorizeConstrained(w, ix) <==> AuthorizeAccounts(w, ix)
    ensures NoDuplicates(AuthorizeKeys(ix)) <==> AuthorizeRolesDiffer(ix)
  {
    hide NoDuplicates;
  }

  lemma AuthorizeVetted(w: Store, ix: AuthorizeIx, slot: u64)
    ensures AuthorizeVerdict(w, ix, slot).Ok? <==> AuthorizeAccepted(w, ix, slot)
    ensures AuthorizeVerdict(w, ix, slot).Ok? ==>
              AuthorizeVerdict(w, ix, slot).value == ix.binding.value.amountIn + ix.binding.value.protocolFee
  {
    hide NoDuplicates, AuthorizeKeys, AuthorizeRolesDiffer;
    AuthorizeDeclared(w, ix);
  }

  lemma TermsFaulted(b: Intent, ix: AuthorizeIx, slot: u64)
    ensures IntentVerdict(b, slot).Err? ==> IntentFault(b, ix, slot, IntentVerdict(b, slot).error)
    ensures IntentVerdict(b, slot).Ok? ==> IntentVerdict(b, slot).value == b.amountIn + b.protocolFee
  {
  }

  lemma RolesFaulted(w: Store, ix: AuthorizeIx, b: Intent, slot: u64)
    ensures IntentRoles(ix, b).Err? ==>
              PresentedFault(w, ix, IntentRoles(ix, b).error) || IntentFault(b, ix, slot, IntentRoles(ix, b).error)
  {
    hide NoDuplicates, AuthorizeKeys, AuthorizeRolesDiffer, AuthorizeAccounts;
    AuthorizeDeclared(w, ix);
  }

  lemma AuthorizeFaulted(w: Store, ix: AuthorizeIx, slot: u64)
    ensures AuthorizeVerdict(w, ix, slot).Err? ==> AuthorizeFault(w, ix, slot, AuthorizeVerdict(w, ix, slot).error)
  {
    hide AuthorizeRolesDiffer, IntentRoles, IntentVerdict;
    AuthorizeDeclared(w, ix);
    if ix.binding.Some? {
      TermsFaulted(ix.binding.value, ix, slot);
      RolesFaulted(w, ix, ix.binding.value, slot);
    }
  }

  /** Authorizations, exactly: terms, expiry, roles and source decide, and the delegate is for that intent's debit. */
  lemma AuthorizesExactly(w: Store, ix: AuthorizeIx, slot: u64)
    ensures AuthorizeSpec(w, ix, slot).Ok? <==> AuthorizeAccepted(w, ix, slot)
    ensures AuthorizeSpec(w, ix, slot).Ok? ==> AuthorizeLeaves(w, AuthorizeSpec(w, ix, slot).value, ix)
    ensures AuthorizeSpec(w, ix, slot).Err? ==> AuthorizeFault(w, ix, slot, AuthorizeSpec(w, ix, slot).error)
  {
    hide AuthorizeVerdict, AuthorizeRolesDiffer, AuthorizeFault;
    AuthorizeVetted(w, ix, slot);
    AuthorizeFaulted(w, ix, slot);
  }

  // ---- Initializations ----

  predicate InitializeAccounts(w: Store, ix: InitializeIx) {
    && ix.initializer.isSigner && ix.initializer.key.Plain? && ix.initializer.isWritable
    && IsMint(w, ix.mintA.key) && IsMint(w, ix.mintB.key)
    && ix.market.key == MarketPda(ix.initializer.key, ix.marketId) && ix.domain.key == DomainPda(ix.market.key)
    && ix.feeLedger.key == FeeLedgerPda(ix.market.key, ix.mintA.key)
    && ix.vaultA.key == VaultPda(ix.domain.key, 0) && ix.vaultB.key == VaultPda(ix.domain.key, 1)
    && ix.feeVault.key == FeeVaultPda(ix.feeLedger.key)
    && ix.market.isWritable && ix.domain.isWritable && ix.feeLedger.isWritable
    && ix.vaultA.isWritable && ix.vaultB.isWritable && ix.feeVault.isWritable
    && ix.market.key !in w && ix.domain.key !in w && ix.feeLedger.key !in w
    && ix.vaultA.key !in w && ix.vaultB.key !in w && ix.feeVault.key !in w
    && ix.tokenProgram.key == TOKEN_PROGRAM && ix.systemProgram.key == SYSTEM_PROGRAM
  }

  predicate InitializeRolesDiffer(ix: InitializeIx) {
    NoDuplicates([ix.initializer.key, ix.market.key, ix.domain.key, ix.feeLedger.key, ix.mintA.key, ix.mintB.key,
                  ix.vaultA.key, ix.vaultB.key, ix.feeVault.key, ix.engineProgram.key, ix.engineState.key,
                  ix.tokenProgram.key, ix.systemProgram.key, CORE])
  }

  predicate InitializeAccepted(w: Store, ix: InitializeIx) {
    && InitializeAccounts(w, ix) && ix.remaining == 0 && InitializeRolesDiffer(ix) && 0 < ix.engineRevision
    && Usable(w, ix.mintA.key) && Usable(w, ix.mintB.key)
    && Executable(w, ix.engineProgram.key) && !Executable(w, ix.engineState.key)
    && OwnerOf(w, ix.engineState.key) == ix.engineProgram.key
    && !ix.engineProgram.isWritable && !ix.mintA.isWritable && !ix.mintB.isWritable
    && !ix.tokenProgram.isWritable && !ix.systemProgram.isWritable
  }

  /** A token account that holds nothing yet. */
  predicate Empty(w: Store, k: Key, mint: Key, owner: Key) {
    && IsToken(w, k) && !w[k].executable
    && TokenAt(w, k).mint == mint && TokenAt(w, k).owner == owner && TokenAt(w, k).amount == 0
    && TokenAt(w, k).delegate == None && TokenAt(w, k).delegatedAmount == 0 && TokenAt(w, k).closeAuthority == None
  }

  /** The records say what the instruction was given, with empty books; every other account stays as it was. */
  ghost predicate InitializeLeaves(w: Store, w': Store, ix: InitializeIx) {
    && IsMarket(w', ix.market.key) && IsDomain(w', ix.domain.key) && IsFeeLedger(w', ix.feeLedger.key)
    && !w'[ix.market.key].executable && !w'[ix.domain.key].executable && !w'[ix.feeLedger.key].executable
    && var m, d, f := MarketAt(w', ix.market.key), DomainAt(w', ix.domain.key), FeeLedgerAt(w', ix.feeLedger.key);
    && m.version == 0 && m.initializer == ix.initializer.key && m.marketId == ix.marketId
    && m.engineProgram == ix.engineProgram.key && m.engineState == ix.engineState.key
    && m.engineRevision == ix.engineRevision && m.mintA == ix.mintA.key && m.mintB == ix.mintB.key
    && m.feeBps == 30 && m.feePolicyRevision == 0
    && d.version == 0 && d.market == ix.market.key && d.engineProgram == ix.engineProgram.key
    && d.engineState == ix.engineState.key && d.engineRevision == ix.engineRevision
    && d.accountedA == 0 && d.accountedB == 0
    && f.version == 0 && f.market == ix.market.key && f.mintA == ix.mintA.key && f.accountedFeeA == 0
    && Empty(w', ix.vaultA.key, ix.mintA.key, ix.domain.key) && Empty(w', ix.vaultB.key, ix.mintB.key, ix.domain.key)
    && Empty(w', ix.feeVault.key, ix.mintA.key, ix.feeLedger.key)
    && forall k :: k !in {ix.market.key, ix.domain.key, ix.feeLedger.key, ix.vaultA.key, ix.vaultB.key,
                          ix.feeVault.key} ==>
         SameAt(w, w', k)
  }

  /** What is wrong with an initialization refused for this reason. */
  predicate InitializeFault(w: Store, ix: InitializeIx, fault: CoreError) {
    match fault
    case AccountConstraint => !InitializeAccounts(w, ix)
    case UnexpectedRemainingAccounts => ix.remaining != 0
    case DuplicateAccountRole => !InitializeRolesDiffer(ix)
    case InvalidEngineRevision => ix.engineRevision == 0
    case NativeMintUnsupported => ix.mintA.key == NATIVE_MINT || ix.mintB.key == NATIVE_MINT
    case MintFreezeAuthorityUnsupported =>
      && IsMint(w, ix.mintA.key) && IsMint(w, ix.mintB.key)
      && (w[ix.mintA.key].data.hasFreezeAuthority || w[ix.mintB.key].data.hasFreezeAuthority)
    case EngineProgramNotExecutable => !Executable(w, ix.engineProgram.key)
    case EngineStateExecutable => Executable(w, ix.engineState.key)
    case InvalidEngineStateOwner => OwnerOf(w, ix.engineState.key) != ix.engineProgram.key
    case UnexpectedWritablePrivilege =>
      || ix.engineProgram.isWritable || ix.mintA.isWritable || ix.mintB.isWritable
      || ix.tokenProgram.isWritable || ix.systemProgram.isWritable
    case _ => false
  }

  lemma InitializeDeclared(w: Store, ix: InitializeIx)
    ensures InitializeConstrained(w, ix) <==> InitializeAccounts(w, ix)
    ensures NoDuplicates(InitializeKeys(ix)) <==> InitializeRolesDiffer(ix)
  {
    hide NoDuplicates;
  }

  lemma CreatedRecords(w: Store, ix: InitializeIx)
    requires InitializeAccounts(w, ix)
    ensures InitializeLeaves(w, Created(w, ix), ix)
  {
  }

  /** Initializations, exactly: six fresh accounts that record what was given, the engine revision included. */
  lemma InitializesExactly(w: Store, ix: InitializeIx)
    ensures InitializeSpec(w, ix).Ok? <==> InitializeAccepted(w, ix)
    ensures InitializeSpec(w, ix).Ok? ==> InitializeLeaves(w, InitializeSpec(w, ix).value, ix)
    ensures InitializeSpec(w, ix).Err? ==> InitializeFault(w, ix, InitializeSpec(w, ix).error)
  {
    hide InitializeConstrained, InitializeAccounts, NoDuplicates, InitializeKeys, InitializeRolesDiffer, Created,
         InitializeLeaves;
    InitializeDeclared(w, ix);
    if InitializeAccounts(w, ix) {
      MintsDeclared(w, ix);
    }
    if InitializeSpec(w, ix).Ok? {
      CreatedRecords(w, ix);
    }
  }

  lemma MintsDeclared(w: Store, ix: InitializeIx)
    requires InitializeAccounts(w, ix)
    ensures IsMint(w, ix.mintA.key) && IsMint(w, ix.mintB.key)
  {
  }

  // ---- In a run ----

  /** A deposit, authorization or initialization does its work when it is accepted, and otherwise nothing. */
  ghost predicate Works(w: Store, w': Store, step: Step) {
    match step
    case Deposit(ix) => if DepositAccepted(w, ix) then DepositLeaves(w, w', ix) else w' == w
    case Authorize(ix, slot) => if AuthorizeAccepted(w, ix, slot) then AuthorizeLeaves(w, w', ix) else w' == w
    case Initialize(ix) => if InitializeAccepted(w, ix) then InitializeLeaves(w, w', ix) else w' == w
    case _ => true
  }

  /** Wherever in a run. */
  lemma {:induction false} StepsWork(w: Store, steps: seq<Step>, step: Step)
    requires Inv(w)
    ensures Works(Run(w, steps), Run(w, steps + [step]), step)
    decreases |steps|
  {
    hide Inv, Works, Attempt;
    if steps == [] {
      assert [] + [step] == [step] && [step][1..] == [];
      OneStep(w, step);
    } else {
      StepsWork(Next(w, steps[0]), steps[1..], step);
      assert (steps + [step])[0] == steps[0] && (steps + [step])[1..] == steps[1..] + [step];
    }
  }

  lemma OneStep(w: Store, step: Step)
    requires Inv(w)
    ensures Works(w, Next(w, step), step)
  {
    hide Inv, InitializeSpec, DepositSpec, AuthorizeSpec, InitializeLeaves, DepositLeaves, AuthorizeLeaves,
         InitializeFault, DepositFault, AuthorizeFault, DirectCall;
    match step
    case Deposit(ix) => DepositsExactly(w, ix);
    case Authorize(ix, slot) => AuthorizesExactly(w, ix, slot);
    case Initialize(ix) => InitializesExactly(w, ix);
    case _ =>
  }
}
