# Routed callback settlement, verified

A Dafny model of the routed-callback-authentication settlement kernel: a Core program that settles a
constant-product trade against cached balances across an untrusted engine call, under an exact, intent-bound
spend delegate. `dafny verify dfyconfig.toml` checks everything.

The model has four layers.

* **Pure cores.** The rounded-up protocol fee and the two-floor exact-input quote in checked 64/128-bit
  arithmetic (`FixedMath`, `PathMath`), and the canonical wire format: six fixed-width codecs written through a
  cursor, nested digests, phase discriminators and the hash preimages (`Wire`, `Codec`, `Requests`, `Preimages`),
  with the byte offset of every field spelled out (`Layouts`).
* **One ledger, two programs, everybody else.** The store maps addresses to accounts (`Ledger`). The settlement
  program's instructions exist twice: as functions of the store (`Core`, `ExecuteInstruction`, `Instructions`),
  and as imperative handlers that cache accounts, check, transfer, reload, check exact deltas and assign
  accounting last (`Validation`, `Program`). The handlers are proved equal to the functions, and the functions
  omit every check that the invariant makes redundant, so that equality is also the proof that those checks never
  fire. The constant-product engine is modelled exactly (`PlanEngine`); every other engine is an arbitrary legal
  outcome (`Runtime`). A run (`Runs`) interleaves settlement instructions, token instructions by anybody, direct
  engine calls, and arbitrary writes by other programs.
* **Characterizations.** What each program accepts, leaves and refuses, stated without the functions that decide it:
  `Admissions` and `Receipts` for the execute instruction, `Acceptance` for the other three, `Evaluations` for the
  engine, `Predecessors` for the two older executors. Each gives an if-and-only-if in terms of accounts, fields and
  amounts, the exact result, and for every error the fault that is then there.
* **Theorems.** Frame and infallible settlement (`Frames`, `ExecuteInstruction`, `Failures`, `Invariants`, `Safety`),
  solvency, conservation and isolation over runs (`Books`), replay and authorization (`Replay`, `Sequence`), exact
  success and the PREPARE/COMMIT refinement (`Honest`, `Trades`, `Timings`), what an authorization brings about
  (`Liveness`), the constant product over runs and splitting (`Growth`), router equivalence (`Routing`), agreement
  of the three capability computations (`Capabilities`) and of the three generations of executor (`Executors`), and
  what the symbolic digests assume of the bytes (`Interpretation`). `Example` exhibits a store, an authorization and
  a trade that satisfy the hypotheses.

## Modelling assumptions

* A program-derived address is an injective tagged constructor over its seeds. Nobody but the settlement program
  signs for its own addresses, and it is never re-entered.
* In the state machine a digest is either raw bytes or `Sha` of one preimage, so hashing is injective and never
  all-zero. `Interpretation.FaithfulExactly` says what that assumes: among keys with distinct addresses, no two
  digests in play share their 32 bytes if and only if SHA-256 has no collision among the encodings in play, no raw
  value there (the zero digest included) is the hash of one of them, and no two raw values coincide. It rests on
  `Preimages.PreimagesInjective`: distinct preimages have distinct encodings.
* The classic token program is modelled on amount, owner, delegate, delegated amount and close authority: a
  delegated transfer decrements the allowance and clears the delegate at zero; a mint's balances sum to its
  supply, at most `u64::MAX` (`Core.Inv`, and proved to stay true).
* The runtime unites the privileges of duplicate metas, lends a callee no more than its caller had, and restores
  the ledger when an instruction fails. One key has one owner, data and executable flag.
* An engine other than the constant-product one may write any account it is lent writable, call the
  constant-product engine with anything it holds, create accounts at addresses somebody can sign for, and leave
  any return data. In the engine's hostile receipt modes any return data at all is allowed, which covers every
  one of them and more.

## What turned out

* From a store that meets the invariant no execution ever reports `SpendDelegateNotCleared`,
  `VaultBelowAccountedBalance`, one of the five exact-delta errors, a token-program failure, or a record, vault,
  mint or authority mismatch (`Failures.RedundantChecksNeverFire`; `Program.HandleExecute` makes all of these checks
  and is proved never to fail on one). Once the primary receipt is accepted a
  single-phase execution cannot fail at all, and a two-phase one only by its COMMIT call, that call's receipt or an
  exhausted sequence (`Failures.SettlementNeverFails`): the second capability-hash check and the post-accounting
  sums never fire.
* `CommitOutputMismatch` is unreachable with an accepting engine, in every store that meets the invariant.
* Market isolation of engine progress holds for a market whose engine state is bound to it (`state.market == m` in
  `Books.Isolation`). A market may name a state that is bound to another market; that state then moves with the
  other market, as `Example.SharedStateAdvances` shows on a concrete store. `Replay.AdvancesWhenReady` gives the
  exact condition as a guard that can be checked before the call: with the accepting engine a step changes the
  progress of a state if and only if it is an execution that admission accepts, whose envelope names that state,
  and for which the state's market, revision, timing and sequence, the quote, the user's minimum and the helper are
  in order; the market that asks is then the one the state is bound to. `Replay.ProgressByGuard` says the same of
  whole runs, and `Replay.ProgressExactly`, in any engine mode, counts the successful executions.
* The routed executor's economic guards are those of its two predecessors, in both directions
  (`Executors.GuardsEquivalent`), from a source whose owner is an ordinary signer; and everything else it demands is
  necessary as well (`Executors.SucceedsExactly`).
* An authorization whose fee is not the rounded-up protocol fee is accepted by `authorize_spend_v0`
  (`Example.MispricedIsAuthorized`) and can never execute (`Replay.MispricedNeverExecutes`).
* An authorized intent that is neither executed, revoked nor replaced executes after any run exactly when the account
  list, expiry, funds, close authority, engine and price are in order (`Liveness.AuthorizedExecutesExactly`).
* The caller-supplied executor reports a short source balance only through the token program, after its
  accounting sums; the set of trades it admits is nevertheless the same.

## Model

| member | source | states |
|---|---|---|
| FixedMath.QuoteRefinesIndependentModel | experiments/engine-generated-settlement/test-programs/generated-plan-engine/src/lib.rs:245-294 | For all inputs the checked quote succeeds exactly when the wide independent model does, with the same values; every rejection has one named cause, so conversion, width and reserve-exceeded failures never fire |
| PathMath.FeeIsCeiling | experiments/routed-callback-auth/programs/routed-callback-core/src/math.rs:5-18 | The fee is the ceiling of the exact proportion, at least one unit, and fails only where that ceiling needs more than 64 bits |
| PathMath.QuoteMeaning | experiments/routed-callback-auth/test-programs/routed-plan-engine/src/lib.rs:279-328 | A successful quote is the two floors of unbounded arithmetic, positive and below the output reserve |
| PathMath.QuoteSucceeds | experiments/routed-callback-auth/test-programs/routed-plan-engine/src/lib.rs:285-318 | Positive reserves, a fitting input and two positive floors suffice for a quote |
| PathMath.QuoteMonotone | experiments/routed-callback-auth/test-programs/routed-plan-engine/src/lib.rs:279-328 | Output is monotone in input and output reserve and antitone in input reserve and LP fee; the better trade quotes exactly when its reserve still fits |
| PathMath.ProductNeverFalls | experiments/routed-callback-auth/test-programs/routed-plan-engine/src/lib.rs:292-318 | Settling the gross input against the quoted output never lowers the product of the reserves |
| PathMath.SplittingNeverHelps | experiments/routed-callback-auth/test-programs/routed-plan-engine/src/lib.rs:279-328 | For any list of successive trades that all quote, the single trade of the summed input quotes and pays at least the total |
| PathMath.SplittingNeverSavesFees | experiments/routed-callback-auth/programs/routed-callback-core/src/math.rs:5-18 | The rounded-up fees of the parts are at least the fee of the whole |
| PathMath.PathProductNeverFalls | experiments/routed-callback-auth/test-programs/routed-plan-engine/src/lib.rs:292-318 | Along any path the product never falls and the output reserve stays positive |
| Wire.SerializedParsed | experiments/routed-callback-auth/crates/routed-callback-probe-wire/src/lib.rs:769-820 | Reading fixed-width fields back from a byte string and writing them again gives the byte string |
| Wire.ParsedSerialized | experiments/routed-callback-auth/crates/routed-callback-probe-wire/src/lib.rs:746-820 | Writing fixed-width fields and reading them back gives the fields |
| Codec.EncodeIntent | experiments/routed-callback-auth/crates/routed-callback-probe-wire/src/lib.rs:357-397 | The cursor-written buffer is the field layout, each of the 27 fields at its own offset, or the timing error |
| Codec.DecodeIntent | experiments/routed-callback-auth/crates/routed-callback-probe-wire/src/lib.rs:399-436 | The cursor reader accepts or rejects as the intent format demands, and reads every field from its own offset |
| Codec.IntentBijection | experiments/routed-callback-auth/crates/routed-callback-probe-wire/src/lib.rs:357-436 | A byte string decodes to an intent exactly when the intent is valid and encodes to it |
| Codec.EncodeExecution | experiments/routed-callback-auth/crates/routed-callback-probe-wire/src/lib.rs:443-473 | The cursor-written execution binding with every field at its own offset, or the first validation error |
| Codec.DecodeExecution | experiments/routed-callback-auth/crates/routed-callback-probe-wire/src/lib.rs:475-501 | The execution reader, with its canonical padding and phase-context checks, field by field from the offsets |
| Codec.ExecutionBijection | experiments/routed-callback-auth/crates/routed-callback-probe-wire/src/lib.rs:443-501 | A byte string decodes to an execution binding exactly when it is valid, zero padding and phase context included, and encodes to it |
| Codec.EncodeReceipt | experiments/routed-callback-auth/crates/routed-callback-probe-wire/src/lib.rs:553-566 | The cursor-written receipt, or the phase error: magic at 0, version at 8, phase at 9, digests at 10 and 42, the output as little-endian bytes 74 to 81 and the sequence as 82 to 89 |
| Codec.DecodeReceipt | experiments/routed-callback-auth/crates/routed-callback-probe-wire/src/lib.rs:568-586 | The receipt reader with its magic, version and phase checks, output and sequence from those offsets |
| Codec.ReceiptBijection | experiments/routed-callback-auth/crates/routed-callback-probe-wire/src/lib.rs:553-586 | The same for receipts, magic, version and phase included |
| Codec.EncodeSettlement | experiments/routed-callback-auth/crates/routed-callback-probe-wire/src/lib.rs:593-621 | The cursor-written settlement binding, every field at its own offset |
| Codec.DecodeSettlement | experiments/routed-callback-auth/crates/routed-callback-probe-wire/src/lib.rs:623-649 | The settlement reader, field by field from the offsets |
| Codec.SettlementBijection | experiments/routed-callback-auth/crates/routed-callback-probe-wire/src/lib.rs:593-649 | The same for settlement bindings |
| Bindings.Padded | experiments/routed-callback-auth/crates/routed-callback-probe-wire/src/lib.rs:656-666 | The padded payload begins with the payload and is zero after it |
| Bindings.BindingValidExactly | experiments/routed-callback-auth/crates/routed-callback-probe-wire/src/lib.rs:668-690 | An execution binding is valid if and only if its phase is known, its context is nonzero exactly in COMMIT, its counts are bounded and its padding is zero; each error names a cause that is there |
| Bindings.PhaseFitsExactly | experiments/routed-callback-auth/crates/routed-callback-probe-wire/src/lib.rs:292-305 | TRANSITION fits the single timing, PREPARE and COMMIT the two-phase one, and no other pair fits |
| Requests.EncodeRequest | experiments/routed-callback-auth/crates/routed-callback-probe-wire/src/lib.rs:508-517 | The encoded request, binding first and its digest at the end, or the first error of its validation: an invalid binding or a digest that is not the binding's own |
| Requests.DecodeRequest | experiments/routed-callback-auth/crates/routed-callback-probe-wire/src/lib.rs:519-530 | The request reader: the binding's verdict, then the nested digest check |
| Requests.RequestBijection | experiments/routed-callback-auth/crates/routed-callback-probe-wire/src/lib.rs:508-530 | A byte string decodes to a request exactly when the request carries the digest of its own valid binding and encodes to it, whatever the hash |
| Requests.EncodeInstruction | experiments/routed-callback-auth/crates/routed-callback-probe-wire/src/lib.rs:532-541 | The phase's discriminator in the first eight bytes and the encoded request after it, or the request's own error |
| Requests.DecodeInstruction | experiments/routed-callback-auth/crates/routed-callback-probe-wire/src/lib.rs:543-551 | The instruction reader: the request's verdict, then the phase's discriminator |
| Requests.InstructionBijection | experiments/routed-callback-auth/crates/routed-callback-probe-wire/src/lib.rs:532-551 | The same for instructions, whose discriminator must be that of the phase |
| Requests.PhasesNeverConfused | experiments/routed-callback-auth/crates/routed-callback-probe-wire/src/lib.rs:307-317 | Two valid instructions with the same discriminator have the same phase |
| Preimages.ComputeCapabilityHash | experiments/routed-callback-auth/crates/routed-callback-probe-wire/src/lib.rs:319-341 | The loop hashes exactly the tagged preimage of the descriptor list, every descriptor at its own offset, or rejects its length |
| Preimages.ComputePayloadHash | experiments/routed-callback-auth/crates/routed-callback-probe-wire/src/lib.rs:343-355 | The payload hash is the hash of its tagged preimage: tag, version, length and payload, each at its own offset, or the length is rejected |
| Preimages.PreimageSpelled | experiments/routed-callback-auth/crates/routed-callback-probe-wire/src/lib.rs:319-355 | Every preimage the protocol hashes is its domain tag and then its fields, each at its own offset |
| Preimages.PreimagesInjective | experiments/routed-callback-auth/crates/routed-callback-probe-wire/src/lib.rs:55-60 | Hash domain plus encoding is injective on the union of capability lists, payloads, intents, executions, receipts and settlements |
| Preimages.EqualDigestsOrCollision | experiments/routed-callback-auth/crates/routed-callback-probe-wire/src/lib.rs:438-441 | Equal digests come from equal preimages, or are a collision of the hash |
| Ledger.Bank.TransferChecked | experiments/routed-callback-auth/programs/routed-callback-core/src/instructions/execute_callback_authenticated_probe_v0.rs:888-901 | A transfer debits by owner or delegate, clears a spent delegate, credits, or changes nothing |
| Ledger.Bank.ApproveChecked | experiments/routed-callback-auth/programs/routed-callback-core/src/instructions/authorize_spend_v0.rs:149-161 | An approval by the owner records delegate and amount, or changes nothing |
| Ledger.TransfersExactly | experiments/routed-callback-auth/programs/routed-callback-core/src/instructions/execute_callback_authenticated_probe_v0.rs:888-938 | A transfer succeeds if and only if the accounts are of the mint, the funds and the sum fit and the authority is the delegate within its allowance or the owner; each refusal names a cause that is there |
| Ledger.TransferLeaves | experiments/routed-callback-auth/programs/routed-callback-core/src/instructions/execute_callback_authenticated_probe_v0.rs:888-938 | A transfer moves the amount between the two balances; a spending delegate loses that much of its allowance and is gone with the last of it; nothing else changes |
| Ledger.ApprovesExactly | experiments/routed-callback-auth/programs/routed-callback-core/src/instructions/authorize_spend_v0.rs:149-161 | An approval succeeds if and only if the owner approves on an account of the mint, and then replaces delegate and allowance and nothing else |
| Ledger.TransferConserves | experiments/routed-callback-auth/programs/routed-callback-core/src/instructions/execute_callback_authenticated_probe_v0.rs:888-938 | A transfer keeps the total balance of every mint |
| Capabilities.EnsureDistinctRoles | experiments/routed-callback-auth/programs/routed-callback-core/src/validation.rs:25-33 | Accepts exactly the key lists without a repetition |
| Capabilities.ValidateOpaqueCapabilities | experiments/routed-callback-auth/programs/routed-callback-core/src/validation.rs:46-96 | The nested loops give the descriptor list with united privileges, or the first failing position's error |
| Capabilities.AcceptedClosure | experiments/routed-callback-auth/programs/routed-callback-core/src/validation.rs:68-85 | No accepted position signs, aliases a fixed role or is Core-owned, and no writable one is a token account or executable, duplicates included |
| Capabilities.CapabilityDescriptors | experiments/routed-callback-auth/programs/routed-callback-core/src/instructions/execute_callback_authenticated_probe_v0.rs:587-610 | The engine state, then the closure with the phase's privileges |
| Capabilities.ProvidedExactly | experiments/routed-callback-auth/programs/routed-callback-core/src/instructions/execute_callback_authenticated_probe_v0.rs:781-793 | A descriptor is provided if and only if one supplied account has its key, owner and executability and at least its privileges |
| Capabilities.BuildPhaseMetas | experiments/routed-callback-auth/programs/routed-callback-core/src/instructions/execute_callback_authenticated_probe_v0.rs:755-793 | The phase's account list, or the failure of the first descriptor without a supplied account |
| Capabilities.CapabilityAgreement | experiments/routed-callback-auth/programs/routed-callback-core/src/instructions/execute_callback_authenticated_probe_v0.rs:781-793 | For every accepted list and phase the supplied account is always found, and the list the engine rebuilds equals Core's position by position |
| Capabilities.FoldIsUnion | experiments/routed-callback-auth/test-programs/hostile-router-probe/src/lib.rs:295-304 | The router's fold of one key is the union of its flags |
| Capabilities.NormalizingTwice | experiments/routed-callback-auth/test-programs/hostile-router-probe/src/lib.rs:288-310 | Normalizing an account list is a fixpoint |
| Capabilities.NormalizingRestricts | experiments/routed-callback-auth/test-programs/hostile-router-probe/src/lib.rs:288-310 | On an alias-free list it leaves the envelope alone and is the closure's own normalization |
| Capabilities.RoutedClosureSame | experiments/routed-callback-auth/programs/routed-callback-core/src/validation.rs:56-93 | Core's verdict on a closure, descriptors or error, is the same for the normalized closure |
| PlanEngine.ValidateFixedAccountPrivileges | experiments/routed-callback-auth/test-programs/routed-plan-engine/src/lib.rs:359-407 | The engine's privilege loop: the first failure over state, callback and closure |
| PlanEngine.EvaluatePhase | experiments/routed-callback-auth/test-programs/routed-plan-engine/src/lib.rs:135-258 | The evaluator that updates the state field by field leaves exactly the specified store and return data, or the first failure |
| PlanEngine.EvaluationEffect | experiments/routed-callback-auth/test-programs/routed-plan-engine/src/lib.rs:177-246 | A call succeeds only under its own phase's callback signer; it changes its state and one helper account, and advances the sequence by one; PREPARE changes no account at all |
| Evaluations.AuthenticExactly | experiments/routed-callback-auth/test-programs/routed-plan-engine/src/lib.rs:135-193 | A call is authenticated if and only if its request is well encoded for the entry point, privileges, state, sequence, timing and callback are those of the phase, and the committed digest is of what the engine sees |
| Evaluations.HelperExactly | experiments/routed-callback-auth/test-programs/routed-plan-engine/src/lib.rs:475-554 | The helper is called exactly when the payload is tagged, succeeds exactly when closure, amount and helper serve, and then the second closure account is the helper's and holds what it wrote |
| Evaluations.EvaluatedExactly | experiments/routed-callback-auth/test-programs/routed-plan-engine/src/lib.rs:135-258 | A call succeeds if and only if it is authentic and priced and, outside PREPARE, helper, sequence and mode allow; then the state is stepped field by field, the helper's write is in place, every other account is as it was, and the return data is the mode's |
| Evaluations.EvaluatedFaulted | experiments/routed-callback-auth/test-programs/routed-plan-engine/src/lib.rs:135-258 | Every failing call reports a fault that is there, authenticity before price, helper, sequence and mode |
| Evaluations.ModeSetExactly | experiments/routed-callback-auth/test-programs/routed-plan-engine/src/lib.rs:88-96 | The mode is set if and only if the state's authority asks for a supported one, and nothing else changes |
| Runtime.ForeignPhaseFails | experiments/routed-callback-auth/test-programs/routed-plan-engine/src/lib.rs:409-433 | No other engine can drive the constant-product engine with what it was lent |
| Runtime.EngineReach | experiments/routed-callback-auth/programs/routed-callback-core/src/instructions/execute_callback_authenticated_probe_v0.rs:811-811 | Whatever the engine, one call reaches only accounts it was lent writable |
| Runtime.ReadOnlyCall | experiments/routed-callback-auth/programs/routed-callback-core/src/instructions/execute_callback_authenticated_probe_v0.rs:755-769 | A call that lends nothing writable changes nothing, whatever the engine |
| Runtime.EngineUnrestrained | experiments/routed-callback-auth/programs/routed-callback-core/src/instructions/execute_callback_authenticated_probe_v0.rs:811-811 | Within that reach an engine of somebody else is free: any content in an account it was lent, and any return data at all, is a possible outcome of its call |
| Core.FeeOf | experiments/routed-callback-auth/programs/routed-callback-core/src/instructions/execute_callback_authenticated_probe_v0.rs:196-196 | The market's fee is `fee_ceil` at 30 basis points: at least one, at most the input |
| Frames.AdmissionFacts | experiments/routed-callback-auth/programs/routed-callback-core/src/instructions/execute_callback_authenticated_probe_v0.rs:166-259 | What an admitted execution has established: bounds, distinct roles, vetted closure, rebuilt intent, exact live delegate, canonical callbacks |
| Admissions.ClosuresExactly | experiments/routed-callback-auth/programs/routed-callback-core/src/validation.rs:46-96 | A closure is accepted if and only if it has at most eight accounts and each of them, with its privileges united, signs nothing, aliases nothing, is not Core's, and is writable only if neither executable nor a token account; each refusal names a cause that is there |
| Admissions.EnvelopesExactly | experiments/routed-callback-auth/programs/routed-callback-core/src/instructions/execute_callback_authenticated_probe_v0.rs:460-585 | Of a declared envelope, distinctness, executability, write and signer privileges decide, and each refusal names a cause that is there |
| Admissions.AdmitsExactly | experiments/routed-callback-auth/programs/routed-callback-core/src/instructions/execute_callback_authenticated_probe_v0.rs:166-259 | An execution reaches its engine if and only if accounts, privileges, payload, timing, amount, expiry, fee and debit bounds, funds, liquidity, closure, committed hash, the spend address of the intent that tells this execution word by word, its exact delegate and both callbacks are in order; what admission fixes, and the cause of each refusal |
| Frames.LentAccounts | experiments/routed-callback-auth/programs/routed-callback-core/src/instructions/execute_callback_authenticated_probe_v0.rs:743-769 | The engine gets one signer, its phase's callback, and may write its state and those closure accounts the transaction itself lists as writable, none of them a fixed role or owned by Core or the token program; in PREPARE nothing |
| Frames.EngineFrame | experiments/routed-callback-auth/programs/routed-callback-core/src/instructions/execute_callback_authenticated_probe_v0.rs:285-292 | Under an arbitrary engine a call changes at most the engine state and accounts outside the envelope listed as writable in the closure, nothing Core or the token program owns; PREPARE changes nothing at all |
| Frames.SettlementFits | experiments/routed-callback-auth/programs/routed-callback-core/src/instructions/execute_callback_authenticated_probe_v0.rs:312-331 | Once the amounts are guarded, no accounting sum and no token credit of settlement can overflow in any reachable store |
| ExecuteInstruction.PrimaryFacts | experiments/routed-callback-auth/programs/routed-callback-core/src/instructions/execute_callback_authenticated_probe_v0.rs:285-331 | After the primary phase the cached balances are live, the output is within bounds and liquidity, and settlement is possible |
| Receipts.RequestSays | experiments/routed-callback-auth/programs/routed-callback-core/src/instructions/execute_callback_authenticated_probe_v0.rs:706-810 | Every request Core makes addresses the engine with its state, one signing callback and the vetted closure, and says the trade, the intent, the books as they stood and both capability digests, word by word |
| Receipts.CommitSays | experiments/routed-callback-auth/programs/routed-callback-core/src/instructions/execute_callback_authenticated_probe_v0.rs:349-395 | COMMIT is told, by digest, of the settlement that just happened: the trade, the books before and after, five settled balances, and the intent, request and receipt of the PREPARE it follows |
| Receipts.ExecutesExactly | experiments/routed-callback-auth/programs/routed-callback-core/src/instructions/execute_callback_authenticated_probe_v0.rs:261-422 | Under any engine an admitted execution succeeds if and only if its primary call goes through and is answered by the market's engine with an acceptable receipt of that very phase, intent and request, and in PREPARE/COMMIT the COMMIT call likewise with the same output; the store it leaves, and the cause of each failure |
| Receipts.ReceiptsBind | experiments/routed-callback-auth/programs/routed-callback-core/src/instructions/execute_callback_authenticated_probe_v0.rs:743-841 | Whatever the engine, each receipt a successful execution settles on was set by the market's engine and carries the call's phase, the digest of the rebuilt intent and the digest of the request's own binding, in the primary call and in COMMIT |
| Receipts.MisboundFails | experiments/routed-callback-auth/programs/routed-callback-core/src/instructions/execute_callback_authenticated_probe_v0.rs:822-841 | An execution whose primary return data is missing, of another setter, undecodable, or of another phase, intent or request fails with the error of that mismatch |
| Receipts.MisboundCommitFails | experiments/routed-callback-auth/programs/routed-callback-core/src/instructions/execute_callback_authenticated_probe_v0.rs:385-395 | Nor does a two-phase execution survive a COMMIT answer that is so misbound |
| ExecuteInstruction.SettlementCommutes | experiments/routed-callback-auth/programs/routed-callback-core/src/instructions/execute_callback_authenticated_probe_v0.rs:333-339 | Settling before or after an engine call comes to the same up to the engine's reach |
| ExecuteInstruction.ExecutionEffect | experiments/routed-callback-auth/programs/routed-callback-core/src/instructions/execute_callback_authenticated_probe_v0.rs:162-443 | Success changes the five balances, cleared delegate and three accounting fields to predicted values, and otherwise only the engine state and writable closure accounts, in both timings and under any engine |
| ExecuteInstruction.ExecutionFootprint | experiments/routed-callback-auth/programs/routed-callback-core/src/instructions/execute_callback_authenticated_probe_v0.rs:162-443 | After a successful execution every account is as it was, except the eight that settlement, accounting and the engine may write and accounts outside the envelope that the closure lists as writable |
| Failures.SettlementNeverFails | experiments/routed-callback-auth/programs/routed-callback-core/src/instructions/execute_callback_authenticated_probe_v0.rs:333-443 | Once the primary receipt is accepted, a single-phase execution succeeds and a two-phase one fails only by COMMIT's call, its receipt or an exhausted sequence |
| Failures.RedundantChecksNeverFire | experiments/routed-callback-auth/programs/routed-callback-core/src/validation.rs:98-345 | From a store that meets the invariant the execution specification, and so the handler that makes all the checks, never reports a record, vault, delta, token or cleared-delegate failure |
| Invariants.OutsideKeepsInv | experiments/routed-callback-auth/programs/routed-callback-core/src/validation.rs:74-85 | Nothing other programs can do disturbs the invariant or any market |
| Invariants.SettlementConserves | experiments/routed-callback-auth/programs/routed-callback-core/src/instructions/execute_callback_authenticated_probe_v0.rs:866-938 | Settlement keeps every mint's total |
| Invariants.ParticipantMoves | experiments/routed-callback-auth/programs/routed-callback-core/src/instructions/execute_callback_authenticated_probe_v0.rs:417-422 | The participating market's balances and books move together by input, fee and output, and it stays solvent |
| Invariants.OthersUntouched | experiments/routed-callback-auth/programs/routed-callback-core/src/instructions/execute_callback_authenticated_probe_v0.rs:460-498 | Every other market keeps its books and no vault of it shrinks, even one that receives the output |
| Invariants.PredictedKeepsInv | experiments/routed-callback-auth/programs/routed-callback-core/src/instructions/execute_callback_authenticated_probe_v0.rs:866-981 | Settlement with accounting keeps the invariant |
| Instructions.DepositRoles | experiments/routed-callback-auth/programs/routed-callback-core/src/instructions/deposit_v0.rs:102-114 | An accepted deposit goes from an ordinary account into a solvent vault of the same mint, and the two fit one word |
| Acceptance.DepositsExactly | experiments/routed-callback-auth/programs/routed-callback-core/src/instructions/deposit_v0.rs:45-162 | In either asset a deposit is accepted if and only if accounts, roles, mint, vault, source, funds and accounting room are in order; then the amount has left the source and entered the vault and that asset's accounting and nothing else has changed; each refusal names a cause that is there |
| Acceptance.AuthorizesExactly | experiments/routed-callback-auth/programs/routed-callback-core/src/instructions/authorize_spend_v0.rs:38-191 | An authorization is accepted if and only if the intent decodes, is for this program, within its own bounds and not expired, names the accounts at hand, and the source is undelegated and funded; then the source delegates that debit to that intent's address and nothing else has changed; each refusal names a cause that is there |
| Acceptance.InitializesExactly | experiments/routed-callback-auth/programs/routed-callback-core/src/instructions/initialize_market_domain_v0.rs:89-199 | An initialization is accepted if and only if accounts, roles, revision, mints and engine are in order; then the six fresh accounts record what was given, the engine revision included, with empty books, and nothing else has changed; each refusal names a cause that is there |
| Acceptance.StepsWork | spec/runtime-baseline.md:70-75 | At the end of any run a deposit, authorization or initialization that is accepted does exactly its work, and one that is not changes nothing |
| Lifecycle.CreatedMarket | experiments/routed-callback-auth/programs/routed-callback-core/src/instructions/initialize_market_domain_v0.rs:152-184 | A new market starts solvent with nothing accounted and nothing held |
| Lifecycle.InitializeKeepsInv | experiments/routed-callback-auth/programs/routed-callback-core/src/instructions/initialize_market_domain_v0.rs:89-199 | Initialization keeps the invariant, adds exactly one market and leaves the others alone |
| Lifecycle.DepositMarket | experiments/routed-callback-auth/programs/routed-callback-core/src/instructions/deposit_v0.rs:106-149 | A deposit moves one balance and its accounting together and nothing else of the market |
| Lifecycle.DepositConserves | experiments/routed-callback-auth/programs/routed-callback-core/src/instructions/deposit_v0.rs:116-143 | A deposit keeps every mint's total |
| Lifecycle.DepositKeepsInv | experiments/routed-callback-auth/programs/routed-callback-core/src/instructions/deposit_v0.rs:45-162 | A deposit keeps the invariant and leaves every other market alone |
| Lifecycle.AuthorizeKeepsInv | experiments/routed-callback-auth/programs/routed-callback-core/src/instructions/authorize_spend_v0.rs:38-191 | Authorizing keeps the invariant and changes no account but the source |
| Wallets.AppliedKeepsInv | experiments/routed-callback-auth/programs/routed-callback-core/src/validation.rs:240-264 | No token instruction anybody can sign harms a market; a vault can at most receive |
| Safety.ExecutionKeepsInv | experiments/routed-callback-auth/programs/routed-callback-core/src/instructions/execute_callback_authenticated_probe_v0.rs:162-443 | Any successful execution keeps the invariant, moves its market exactly, leaves all others alone |
| Safety.ExecutionConserves | experiments/routed-callback-auth/programs/routed-callback-core/src/instructions/execute_callback_authenticated_probe_v0.rs:866-974 | Any successful execution keeps every mint's total |
| Safety.ExecutionTokens | experiments/routed-callback-auth/programs/routed-callback-core/src/instructions/execute_callback_authenticated_probe_v0.rs:940-979 | The source loses exactly its allowance and its delegate, the recipient gains the output, accounts outside settlement are unchanged |
| Runs.Run | spec/runtime-baseline.md:70-75 | The store any interleaving ends in satisfies the invariant; failing steps change nothing |
| Runs.StepOrderly | experiments/routed-callback-auth/programs/routed-callback-core/src/validation.rs:98-211 | Every step keeps the invariant and every market's record, adds a market only by initialization, and leaves non-participants alone |
| Runs.DirectPhaseFails | experiments/routed-callback-auth/test-programs/routed-plan-engine/src/lib.rs:409-433 | Nobody can make the engine evaluate by calling it directly |
| Books.StepSlack | experiments/routed-callback-auth/programs/routed-callback-core/src/instructions/execute_callback_authenticated_probe_v0.rs:578-583 | One step raises a vault's slack by exactly the credits no accounting entry matches |
| Books.Solvency | experiments/routed-callback-auth/programs/routed-callback-core/src/validation.rs:318-321 | Over any run every vault covers its accounting, has no delegate or close authority, and its slack is the initial slack plus the unaccounted credits received |
| Books.Conservation | experiments/routed-callback-auth/programs/routed-callback-core/src/instructions/execute_callback_authenticated_probe_v0.rs:866-981 | Over any run a mint's balances change only by minting and burning and still sum to its supply |
| Books.StepProgress | experiments/routed-callback-auth/test-programs/routed-plan-engine/src/lib.rs:171-175 | One step advances an engine state by one from the expected sequence if it is a successful execution of its bound market, and otherwise leaves its progress |
| Books.TermsStand | experiments/routed-callback-auth/test-programs/routed-plan-engine/src/lib.rs:53-86 | Over any run an engine state keeps authority, market, revision, LP fee and timing, and a state that appears has a positive revision, a fee below 100% and a known timing |
| Books.Isolation | experiments/routed-callback-auth/programs/routed-callback-core/src/instructions/execute_callback_authenticated_probe_v0.rs:460-498 | A run that never names the market as participant leaves its record, domain, fee ledger and bound engine progress unchanged and no vault smaller |
| Sequence.ExecutionSteps | experiments/routed-callback-auth/programs/routed-callback-core/src/instructions/execute_callback_authenticated_probe_v0.rs:397-404 | In both timings a successful execution finds the expected sequence in the state bound to its market and leaves it one higher |
| Sequence.ExecutionSparesStates | experiments/routed-callback-auth/test-programs/routed-plan-engine/src/lib.rs:160-181 | An execution leaves the progress of every other engine state |
| Replay.SequenceCounts | experiments/routed-callback-auth/test-programs/routed-plan-engine/src/lib.rs:227-240 | Over any run the engine sequence counts the successful executions through the state |
| Replay.NoSequenceReplay | experiments/routed-callback-auth/programs/routed-callback-core/src/instructions/execute_callback_authenticated_probe_v0.rs:843-853 | Two successful executions through one state, however far apart, have increasing expected sequences |
| Replay.ProgressExactly | experiments/routed-callback-auth/test-programs/routed-plan-engine/src/lib.rs:163-175 | Over any run an engine state keeps its progress if and only if the run has no successful execution through it |
| Replay.AdvancesWhenReady | experiments/routed-callback-auth/test-programs/routed-plan-engine/src/lib.rs:160-240 | With the accepting engine a step changes the progress of a state if and only if it is an admitted execution that names the state and finds its market, revision, timing, sequence, quote, minimum and helper in order; its participant is then the state's market |
| Replay.ProgressByGuard | experiments/routed-callback-auth/test-programs/routed-plan-engine/src/lib.rs:160-240 | Over any run the progress of an accepting state changes if and only if some step is, when its turn comes, such an execution |
| Replay.StepSpends | experiments/routed-callback-auth/programs/routed-callback-core/src/validation.rs:292-312 | An execution uses up a live delegate and its whole allowance; only an approval renews it |
| Replay.OneShotSpending | experiments/routed-callback-auth/programs/routed-callback-core/src/instructions/execute_callback_authenticated_probe_v0.rs:888-915 | Over any run executions of an intent are at most the approvals of its spend address, and the total debit at most the total approved |
| Replay.DelegateNamesIntent | experiments/routed-callback-auth/programs/routed-callback-core/src/instructions/execute_callback_authenticated_probe_v0.rs:613-650 | Under a delegate installed for an intent, a successful execution rebuilds that intent in all 27 fields |
| Replay.AuthorizationHonoured | experiments/routed-callback-auth/programs/routed-callback-core/src/instructions/execute_callback_authenticated_probe_v0.rs:613-650 | Under a delegate installed for an intent, success under any engine debits and credits exactly the accounts the intent names, by its amounts, within its bounds, on its market, before its expiry |
| Replay.AuthorizedThenExecuted | experiments/routed-callback-auth/programs/routed-callback-core/src/instructions/authorize_spend_v0.rs:47-75 | Authorize, then anything but another approval, then execute: exactly the authorized binding at exactly the authorized debit, before its expiry |
| Replay.DelegationStands | experiments/routed-callback-auth/programs/routed-callback-core/src/validation.rs:292-312 | Over any run in which nobody approves on the source, a delegation to a spend address is at the end exactly what it was, by the same owner and for the same amount, or gone |
| Replay.MispricedNeverExecutes | experiments/routed-callback-auth/programs/routed-callback-core/src/instructions/execute_callback_authenticated_probe_v0.rs:235-254 | An intent whose fee is not the rounded-up fee never executes |
| Liveness.FulfilledExactly | experiments/routed-callback-auth/programs/routed-callback-core/src/instructions/execute_callback_authenticated_probe_v0.rs:166-259 | With the accepting engine, an intent whose exact delegate is in place and which the execution rebuilds executes if and only if account list, expiry, funds, close authority, engine and price are in order |
| Liveness.GrantStands | experiments/routed-callback-auth/programs/routed-callback-core/src/instructions/authorize_spend_v0.rs:149-185 | After an authorization and any run without another approval, a delegate that still lives is the intent's own for its exact debit, by the same owner |
| Liveness.AuthorizedExecutesExactly | experiments/routed-callback-auth/programs/routed-callback-core/src/instructions/authorize_spend_v0.rs:38-191 | Authorize an intent that says truly what an execution observes; after any run in which nobody approves another delegate and it is neither executed nor revoked, and with the accounts still of the kinds the envelope demands, it executes with the accepting engine if and only if account list, expiry, funds, close authority, engine and price are in order |
| Honest.SeenAsCommitted | experiments/routed-callback-auth/test-programs/routed-plan-engine/src/lib.rs:183-193 | What the engine observes in any phase is the list Core committed to |
| Honest.PrivilegesHold | experiments/routed-callback-auth/test-programs/routed-plan-engine/src/lib.rs:359-407 | The engine's privilege checks pass on every call Core builds |
| Honest.CallsInOrder | experiments/routed-callback-auth/programs/routed-callback-core/src/instructions/execute_callback_authenticated_probe_v0.rs:706-740 | Encoding, privileges, callback and capability hash of every call Core builds are in order |
| Honest.HonestPhase | experiments/routed-callback-auth/test-programs/routed-plan-engine/src/lib.rs:135-258 | A phase of the accepting engine succeeds exactly when market, revision, timing, sequence, quote and helper allow, with the exact store and receipt |
| Trades.TradeExactly | experiments/routed-callback-auth/programs/routed-callback-core/src/instructions/execute_callback_authenticated_probe_v0.rs:285-422 | With the accepting engine an admitted execution succeeds if and only if the trade is ready, leaves exactly the trade's store, and never fails on a commit mismatch |
| Trades.CommitTrade | experiments/routed-callback-auth/programs/routed-callback-core/src/instructions/execute_callback_authenticated_probe_v0.rs:349-404 | After its own PREPARE the accepting engine's COMMIT fails only in the engine, never on output, capability hash or sequence |
| Trades.CommitRecordsSettlement | experiments/routed-callback-auth/programs/routed-callback-core/src/instructions/execute_callback_authenticated_probe_v0.rs:984-1012 | After a PREPARE/COMMIT trade the engine state records the digest of the settlement that happened: the amounts, the books before and after, the five final balances, and the intent, request and receipt of the PREPARE it follows |
| Timings.AdmissionsAgree | experiments/routed-callback-auth/programs/routed-callback-core/src/instructions/execute_callback_authenticated_probe_v0.rs:166-259 | The same trade under its two timings is admitted under both or neither |
| Timings.TimingsAgree | experiments/routed-callback-auth/programs/routed-callback-core/src/instructions/execute_callback_authenticated_probe_v0.rs:285-422 | PREPARE/COMMIT and TRANSITION succeed from the same stores and give the same fee, output, balances, accounting, cleared delegate, sequence and last amount |
| Growth.ExecutionGrows | experiments/routed-callback-auth/programs/routed-callback-core/src/instructions/execute_callback_authenticated_probe_v0.rs:420-422 | An accepted execution pays the quote of the accounted reserves and never lowers their product |
| Growth.ProductNeverFallsOverRuns | experiments/routed-callback-auth/programs/routed-callback-core/src/instructions/execute_callback_authenticated_probe_v0.rs:312-331 | Over any run whose successful executions on the market use an accepting engine the accounted product never falls, and reserves once positive stay positive |
| Growth.TradesFollowPath | experiments/routed-callback-auth/programs/routed-callback-core/src/instructions/execute_callback_authenticated_probe_v0.rs:162-443 | In any run in which the market itself only trades with the accepting engine, interleaved with anything else and over any sources, its executions pay exactly the path of quotes from the accounted reserves and owe exactly the path's fees |
| Growth.SplittingExecutionsNeverHelps | experiments/routed-callback-auth/test-programs/routed-plan-engine/src/lib.rs:274-328 | However a trade is split over a run, over one source with authorizations between the parts or over many, the single trade of the summed input quotes, pays at least as much and owes at most the same fees |
| Routing.RoutedEqualsDirect | experiments/routed-callback-auth/test-programs/hostile-router-probe/src/lib.rs:140-160 | On an alias-free envelope the routed call has the direct call's outcome, error for error and store for store |
| Routing.RoutedSucceedsAlike | experiments/routed-callback-auth/test-programs/hostile-router-probe/src/lib.rs:140-160 | On any envelope the routed call succeeds exactly when the direct one does, with the same result |
| Validation.EnvelopeChecksReduce | experiments/routed-callback-auth/programs/routed-callback-core/src/instructions/execute_callback_authenticated_probe_v0.rs:460-585 | In a reachable store record, vault, authority, mint and raw-covers-accounted checks never fire |
| Validation.DepositChecksReduce | experiments/routed-callback-auth/programs/routed-callback-core/src/instructions/deposit_v0.rs:61-108 | A deposit's record and vault checks never fire in a reachable store |
| Validation.RecordsExactly | experiments/routed-callback-auth/programs/routed-callback-core/src/validation.rs:98-187 | Market, domain and fee ledger pass their checks if and only if they agree with each other, with their addresses and with the program's constants |
| Validation.TokensExactly | experiments/routed-callback-auth/programs/routed-callback-core/src/validation.rs:240-312 | A protected account is its owner's alone and undelegated, an authorizable source likewise, and a spending source delegates exactly the debit: exactly these pass |
| Validation.DeltasExactly | experiments/routed-callback-auth/programs/routed-callback-core/src/validation.rs:318-341 | A delta passes if and only if the balance moved by exactly the expected amount in the expected direction |
| Program.CheckRoles | experiments/routed-callback-auth/programs/routed-callback-core/src/instructions/execute_callback_authenticated_probe_v0.rs:166-194 | Arguments and envelope with every source check in its order equal the reduced verdict |
| Program.AdmitExecution | experiments/routed-callback-auth/programs/routed-callback-core/src/instructions/execute_callback_authenticated_probe_v0.rs:166-259 | All checks before the engine call, with their loops, equal the admission specification |
| Program.PhaseProvided | experiments/routed-callback-auth/programs/routed-callback-core/src/instructions/execute_callback_authenticated_probe_v0.rs:781-793 | The lookup of a normalized account never fails, in any phase |
| Program.InvokeEnginePhase | experiments/routed-callback-auth/programs/routed-callback-core/src/instructions/execute_callback_authenticated_probe_v0.rs:743-820 | One engine CPI: the engine's effect and the receipt as read from the return data |
| Program.TransfersSettle | experiments/routed-callback-auth/programs/routed-callback-core/src/instructions/execute_callback_authenticated_probe_v0.rs:888-938 | The three transfers succeed and leave the settled store: the fee keeps the delegate alive after the first, the second clears it |
| Program.SettleAuthenticatedIntent | experiments/routed-callback-auth/programs/routed-callback-core/src/instructions/execute_callback_authenticated_probe_v0.rs:866-981 | Given live cached balances, settlement succeeds: all five exact deltas hold and the delegate is cleared |
| Program.CacheHolds | experiments/routed-callback-auth/programs/routed-callback-core/src/instructions/execute_callback_authenticated_probe_v0.rs:873-877 | Balances cached before an arbitrary engine call are still true at settlement |
| Program.RunPrimary | experiments/routed-callback-auth/programs/routed-callback-core/src/instructions/execute_callback_authenticated_probe_v0.rs:261-308 | TRANSITION or PREPARE and its receipt checks equal the specification |
| Program.RunCommit | experiments/routed-callback-auth/programs/routed-callback-core/src/instructions/execute_callback_authenticated_probe_v0.rs:349-415 | COMMIT and its receipt checks equal the specification; its capability-hash recheck never fires |
| Program.HandleExecute | experiments/routed-callback-auth/programs/routed-callback-core/src/instructions/execute_callback_authenticated_probe_v0.rs:162-443 | The handler, with every check and accounting last, equals the execution specification for every engine, and never fails on a redundant check |
| Program.Execute | experiments/routed-callback-auth/programs/routed-callback-core/src/instructions/execute_callback_authenticated_probe_v0.rs:162-443 | The instruction leaves the specified store, or on any failure the old one, and never fails on a redundant check |
| Program.Initialize | experiments/routed-callback-auth/programs/routed-callback-core/src/instructions/initialize_market_domain_v0.rs:89-199 | The handler creates the specified six accounts, or changes nothing |
| Program.CheckDeposit | experiments/routed-callback-auth/programs/routed-callback-core/src/instructions/deposit_v0.rs:46-108 | Every deposit check in its order equals the reduced verdict |
| Program.Deposit | experiments/routed-callback-auth/programs/routed-callback-core/src/instructions/deposit_v0.rs:45-162 | The handler moves the amount into vault and accounting, or changes nothing |
| Program.CheckAuthorize | experiments/routed-callback-auth/programs/routed-callback-core/src/instructions/authorize_spend_v0.rs:42-146 | Every authorize check in its order equals the reduced verdict and gives the exact debit |
| Program.AuthorizeSpend | experiments/routed-callback-auth/programs/routed-callback-core/src/instructions/authorize_spend_v0.rs:38-191 | The handler installs the exact intent-bound delegate, or changes nothing; its rechecks never fire |
| Executors.SettleForUser | experiments/engine-generated-settlement/programs/generated-settlement-core/src/instructions/execute_engine_generated_probe_v0.rs:516-608 | The predecessors' three transfers and five deltas leave the same balances as the delegate's, or fail for funds |
| Executors.AcceptedIsVetted | experiments/engine-generated-settlement/programs/generated-settlement-core/src/instructions/execute_engine_generated_probe_v0.rs:331-332 | A closure that passes the opaque-account checks lends the engine nothing of Core's or the token program's |
| Executors.ReplyFrame | experiments/engine-generated-settlement/programs/generated-settlement-core/src/instructions/execute_engine_generated_probe_v0.rs:447-454 | Whatever a predecessor's engine lawfully writes to its state and vetted closure, every token account is as it was cached |
| Executors.ExecuteCallerSupplied | programs/core/src/instructions/execute_engine_probe_v0.rs:239-457 | The caller-supplied executor from its first economic guard on, its engine's writes and veto included, equals its guard-by-guard specification |
| Executors.ExecuteEngineGenerated | experiments/engine-generated-settlement/programs/generated-settlement-core/src/instructions/execute_engine_generated_probe_v0.rs:284-608 | The engine-generated executor from its first economic guard on, its engine's writes, failure and receipt included, equals its guard-by-guard specification |
| Predecessors.SuppliedExactly | programs/core/src/instructions/execute_engine_probe_v0.rs:239-457 | Whatever its engine replies, the caller-supplied executor settles a trade if and only if fee, bounds, expiry, funds and liquidity are in order and the engine does not veto it; then five balances and three books move by the trade and nothing else changes but the engine's own writes |
| Predecessors.GeneratedExactly | experiments/engine-generated-settlement/programs/generated-settlement-core/src/instructions/execute_engine_generated_probe_v0.rs:284-608 | The same of the engine-generated executor, for the output its engine accepted |
| Executors.PredecessorsAgree | programs/core/src/instructions/execute_engine_probe_v0.rs:239-291 | With engines that accept the output, the two predecessors admit the same trades and leave the same store but for what either engine wrote |
| Executors.BalanceIsCheckedLate | programs/core/src/instructions/execute_engine_probe_v0.rs:366-394 | Short of funds, one executor says so itself and the other fails in the token program or on an accounting sum |
| Executors.RoutedRefinesPredecessors | experiments/routed-callback-auth/programs/routed-callback-core/src/instructions/execute_callback_authenticated_probe_v0.rs:866-981 | Whatever the routed executor settles, under any engine, both predecessors would have accepted from the undelegated source, and they leave the same store up to the engine's reach |
| Executors.GuardsEquivalent | experiments/routed-callback-auth/programs/routed-callback-core/src/instructions/execute_callback_authenticated_probe_v0.rs:197-217 | With an envelope, closure and delegate in order and an accepting engine in step with a price, the routed executor accepts a trade if and only if each predecessor accepts it from the undelegated source, and all three leave the same balances and books |
| Executors.SucceedsExactly | experiments/routed-callback-auth/programs/routed-callback-core/src/instructions/execute_callback_authenticated_probe_v0.rs:162-443 | With the accepting engine an execution succeeds if and only if its envelope, closure, delegate, engine state, price and helper are in order and the engine-generated executor would accept the quoted trade from the owner's undelegated source |
| Interpretation.FaithfulExactly | experiments/routed-callback-auth/crates/routed-callback-probe-wire/src/lib.rs:438-441 | Symbolic digests in play are faithful to their 32 bytes if and only if the hash has no collision among the encodings in play and no raw value there coincides with another or with one of those hashes |
| Interpretation.IntentOnTheWire | experiments/routed-callback-auth/crates/routed-callback-probe-wire/src/lib.rs:357-436 | The bytes of a symbolic intent decode exactly when its timing is known, to that intent and to no other one in play |
| Interpretation.RequestChecksAgree | experiments/routed-callback-auth/crates/routed-callback-probe-wire/src/lib.rs:692-698 | The engine's symbolic check of a request holds exactly when the wire-level validation of the concrete request does |
| Interpretation.RequestOnTheWire | experiments/routed-callback-auth/crates/routed-callback-probe-wire/src/lib.rs:532-551 | The bytes of a symbolic instruction decode exactly when the request is valid, to that request and to no other one in play |
| Example.ExampleInStep | experiments/routed-callback-auth/test-programs/routed-plan-engine/src/lib.rs:279-328 | On the concrete store the trade is in step and its owner could have made it with the engine-generated executor |
| Example.ExampleFulfillable | experiments/routed-callback-auth/programs/routed-callback-core/src/instructions/authorize_spend_v0.rs:38-191 | A concrete priced intent is authorized from a concrete store, and all that authorization leaves open is in order |
| Example.SharedStateAdvances | experiments/routed-callback-auth/programs/routed-callback-core/src/instructions/initialize_market_domain_v0.rs:135-143 | Two markets may name one engine state: a run that names only the first advances the state the second is bound to |
| Example.MispricedIsAuthorized | experiments/routed-callback-auth/programs/routed-callback-core/src/instructions/authorize_spend_v0.rs:56-68 | A concrete intent with twice the protocol fee is authorized |
| Example.ExampleTrade | experiments/routed-callback-auth/test-programs/routed-plan-engine/src/lib.rs:279-328 | A concrete store meets the invariant and a concrete trade on it succeeds with fee 1 and output 90 |

## Left out

- Bumps, rent, lamports, serialization discriminators and Anchor's account macros: only the relations they enforce between addresses, owners, types, mints and mutability are kept, as one `AccountConstraint` error.
- SHA-256 and the PDA search themselves: abstract, under the assumptions above.
- Token-2022, native, frozen and uninitialized token accounts, decimals and mint authorities: no account of the model has them; minting is anybody's.
- Creation of balances by an engine during its own CPI: an engine may create empty token accounts, records of no meaning and fresh engine states, but minting, transferring and closing by nested token calls happen in the run's token steps instead.
- The helper program's own logic: its write is an arbitrary value, its failure an arbitrary choice.
- Events, error numbers and texts, packet size, compute and call depth, address lookup tables.
- The engine's hostile receipt modes one by one: each is covered by arbitrary return data.
- The router's drain and callback-reuse modes: fixtures about runtime signer checks. The callback cannot be reused by another engine (`Runtime.ForeignPhaseFails`) nor directly (`Runs.DirectPhaseFails`).
- The predecessors' wire formats, plan binding, instruction introspection and capability checks: their engine call is any lawful writes with any verdict, which also stands for what those checks refuse.
- The predecessors' deposit, initialize, math and validation copies: the same theorems on less.
- Atomicity of several instructions in one transaction: a run interleaves single instructions, so it admits more behaviours.
- Program.AuthorizeSpend: takes the decoded binding, `None` when the bytes do not decode; `Interpretation.IntentOnTheWire` shows that decoding the bytes gives that binding.
- Program.InvokeEnginePhase: passes the request itself; `Interpretation.RequestOnTheWire` shows that decoding the instruction's bytes gives that request exactly when the engine's check of it passes.
- Executors.ExecuteCallerSupplied: the plan binding and the receipt checks among its lines are part of the arbitrary verdict.
- Executors.ExecuteEngineGenerated: the capability-hash, request and receipt checks among its lines are part of the arbitrary verdict; what its closure check establishes is `Executors.AcceptedIsVetted`.
- Predecessors.SuppliedExactly: likewise from the first economic guard on, with the engine's call as an arbitrary lawful reply.
- Predecessors.GeneratedExactly: likewise.
- Executors.RoutedRefinesPredecessors: stated for a source whose owner is an ordinary signer, because the predecessors require the user's own signature.
- Executors.GuardsEquivalent: likewise for a source whose owner is an ordinary signer.
- Executors.SucceedsExactly: likewise for a source whose owner is an ordinary signer.
- Books.Isolation: engine progress is claimed for a state bound to the market only, because otherwise it is false; the exact condition is `Replay.AdvancesWhenReady`.
