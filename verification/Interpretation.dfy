/**
 * The symbolic digests of the state machine, read as 32-byte strings: which collisions the reading
 * `Sha` as injective rules out, and that the wire-level checks agree with the symbolic ones.
 */
module Interpretation {
  import opened Base
  import opened Bindings
  import opened Keys
  import opened Wire
  import Codec
  import Preimages
  import Requests
  import PlanEngine

  /** SHA-256, the 32-byte address of each key, and the bytes of the digests nobody hashed. */
  datatype Concretion = Concretion(sha: Hasher, address: Key -> Bytes32, raw: nat -> Bytes32)

  // ---- From symbols to bytes ----

  function Bytes(c: Concretion, d: Digest): Bytes32
    decreases d
  {
    match d
    case Raw(n) => c.raw(n)
    case Sha(p) => c.sha(Preimages.PreimageBytes(PreimageOf(c, p)))
  }

  function PreimageOf(c: Concretion, p: Preimage<Key, Digest>): Preimages.HashInput
    decreases p
  {
    match p
    case CapabilityPreimage(program, ds) => CapabilityPreimage(c.address(program), DescriptorsOf(c, ds))
    case PayloadPreimage(payload) => PayloadPreimage(payload)
    case IntentPreimage(b) => IntentPreimage(IntentOf(c, b))
    case ExecutionPreimage(b) => ExecutionPreimage(ExecutionOf(c, b))
    case ReceiptPreimage(b) => ReceiptPreimage(ReceiptOf(c, b))
    case SettlementPreimage(b) => SettlementPreimage(SettlementOf(c, b))
  }

  function DescriptorOf(c: Concretion, d: Descriptor): Preimages.Descriptor {
    CapabilityDescriptor(c.address(d.key), c.address(d.owner), d.isWritable, d.isSigner, d.isExecutable)
  }

  function DescriptorsOf(c: Concretion, ds: seq<Descriptor>): (cs: seq<Preimages.Descriptor>)
    ensures |cs| == |ds| && forall i :: 0 <= i < |ds| ==> cs[i] == DescriptorOf(c, ds[i])
  {
    seq(|ds|, i requires 0 <= i < |ds| => DescriptorOf(c, ds[i]))
  }

  function IntentOf(c: Concretion, b: Intent): Codec.Intent
    decreases b
  {
    IntentBinding(
      b.timingMode, c.address(b.coreProgram), c.address(b.market), c.address(b.domain), c.address(b.engineProgram),
      c.address(b.engineState), c.address(b.userAuthority), c.address(b.userInput), c.address(b.userOutput),
      c.address(b.mintIn), c.address(b.mintOut), c.address(b.domainInputVault), c.address(b.domainOutputVault),
      c.address(b.protocolFeeVault), c.address(b.feeLedger), c.address(b.tokenProgram),
      b.engineRevision, b.feePolicyRevision, b.amountIn, b.protocolFee, b.maxTotalInputDebit, b.minOutputCredit,
      b.maxProtocolFee, b.expiresAtSlot,
      Bytes(c, b.authorizationNonce), Bytes(c, b.authorizedCapabilityHash), Bytes(c, b.payloadHash))
  }

  function ExecutionOf(c: Concretion, b: Execution): Codec.Execution
    decreases b
  {
    ExecutionBinding(
      b.phase, Bytes(c, b.intentDigest), Bytes(c, b.phaseContextDigest), c.address(b.market), c.address(b.domain),
      b.engineRevision, b.amountIn, b.protocolFee,
      b.accountedInputBefore, b.accountedOutputBefore, b.accountedFeeBefore, b.preSequence,
      Bytes(c, b.authorizedCapabilityHash), Bytes(c, b.phaseCapabilityHash),
      b.opaqueAccountCount, b.payloadLen, b.payload)
  }

  function ReceiptOf(c: Concretion, b: Receipt): Codec.Receipt
    decreases b
  {
    EngineReceipt(b.phase, Bytes(c, b.intentDigest), Bytes(c, b.executionDigest), b.amountOut, b.stateSequence)
  }

  function SettlementOf(c: Concretion, b: SettlementBinding<Digest>): Codec.Settlement
    decreases b
  {
    SettlementBinding(
      Bytes(c, b.intentDigest), Bytes(c, b.primaryExecutionDigest), Bytes(c, b.primaryReceiptDigest),
      b.amountIn, b.amountOut, b.protocolFee, b.totalInputDebit,
      b.accountedInputBefore, b.accountedOutputBefore, b.accountedFeeBefore,
      b.accountedInputAfter, b.accountedOutputAfter, b.accountedFeeAfter,
      b.observedSourceAfter, b.observedDestinationAfter, b.observedInputVaultAfter,
      b.observedOutputVaultAfter, b.observedFeeVaultAfter)
  }

  function RequestOf(c: Concretion, r: Request): Codec.Request {
    EngineRequest(ExecutionOf(c, r.binding), Bytes(c, r.executionDigest))
  }

  // ---- The terms in play ----

  /** The keys a preimage mentions... */
  predicate MentionsOnly(p: Preimage<Key, Digest>, keys: set<Key>) {
    match p
    case CapabilityPreimage(program, ds) =>
      program in keys && forall i :: 0 <= i < |ds| ==> ds[i].key in keys && ds[i].owner in keys
    case IntentPreimage(b) =>
      && b.coreProgram in keys && b.market in keys && b.domain in keys && b.engineProgram in keys
      && b.engineState in keys
      && b.userAuthority in keys && b.userInput in keys && b.userOutput in keys && b.mintIn in keys && b.mintOut in keys
      && b.domainInputVault in keys && b.domainOutputVault in keys && b.protocolFeeVault in keys && b.feeLedger in keys
      && b.tokenProgram in keys
    case ExecutionPreimage(b) => b.market in keys && b.domain in keys
    case _ => true
  }

  /** ...and the digests it carries. */
  predicate CarriesOnly(p: Preimage<Key, Digest>, digests: set<Digest>) {
    match p
    case IntentPreimage(b) =>
      b.authorizationNonce in digests && b.authorizedCapabilityHash in digests && b.payloadHash in digests
    case ExecutionPreimage(b) =>
      && b.intentDigest in digests && b.phaseContextDigest in digests
      && b.authorizedCapabilityHash in digests && b.phaseCapabilityHash in digests
    case ReceiptPreimage(b) => b.intentDigest in digests && b.executionDigest in digests
    case SettlementPreimage(b) =>
      b.intentDigest in digests && b.primaryExecutionDigest in digests && b.primaryReceiptDigest in digests
    case _ => true
  }

  function Encoded(c: Concretion, p: Preimage<Key, Digest>): seq<byte> {
    Preimages.PreimageBytes(PreimageOf(c, p))
  }

  /**
   * Whatever was hashed in play was encodable, and its keys, told apart by their addresses, and digests are
   * in play.
   */
  ghost predicate InPlay(c: Concretion, keys: set<Key>, digests: set<Digest>) {
    && (forall k, l :: k in keys && l in keys && c.address(k) == c.address(l) ==> k == l)
    && (forall p :: Sha(p) in digests ==>
          MentionsOnly(p, keys) && CarriesOnly(p, digests) && Preimages.Hashable(PreimageOf(c, p)))
  }

  /**
   * No two raw digests in play coincide, none is the hash of an encoding in play, and no two encodings in
   * play collide.
   */
  ghost predicate CollisionFree(c: Concretion, digests: set<Digest>) {
    && (forall m, n :: Raw(m) in digests && Raw(n) in digests && c.raw(m) == c.raw(n) ==> m == n)
    && (forall n, p :: Raw(n) in digests && Sha(p) in digests ==> c.raw(n) != c.sha(Encoded(c, p)))
    && (forall p, q :: Sha(p) in digests && Sha(q) in digests ==>
        !Preimages.Collision(c.sha, Encoded(c, p), Encoded(c, q)))
  }

  ghost predicate Faithful(c: Concretion, digests: set<Digest>) {
    forall d, e :: d in digests && e in digests && Bytes(c, d) == Bytes(c, e) ==> d == e
  }

  // ---- Equal bytes, equal digests ----

  lemma SameAddress(c: Concretion, keys: set<Key>, digests: set<Digest>, k: Key, l: Key)
    requires InPlay(c, keys, digests) && k in keys && l in keys && c.address(k) == c.address(l)
    ensures k == l
  {
  }

  lemma SameDescriptors(c: Concretion, keys: set<Key>, digests: set<Digest>, ds: seq<Descriptor>, es: seq<Descriptor>)
    requires InPlay(c, keys, digests) && DescriptorsOf(c, ds) == DescriptorsOf(c, es)
    requires forall i :: 0 <= i < |ds| ==> ds[i].key in keys && ds[i].owner in keys
    requires forall i :: 0 <= i < |es| ==> es[i].key in keys && es[i].owner in keys
    ensures ds == es
  {
    hide InPlay, DescriptorsOf;
    assert |ds| == |DescriptorsOf(c, ds)| == |es|;
    forall i | 0 <= i < |ds| ensures ds[i] == es[i] {
      assert DescriptorsOf(c, ds)[i] == DescriptorOf(c, ds[i]) && DescriptorsOf(c, es)[i] == DescriptorOf(c, es[i]);
      SameAddress(c, keys, digests, ds[i].key, es[i].key);
      SameAddress(c, keys, digests, ds[i].owner, es[i].owner);
    }
  }

  lemma SameIntentKeys(c: Concretion, keys: set<Key>, digests: set<Digest>, a: Intent, b: Intent)
    requires InPlay(c, keys, digests) && IntentOf(c, a) == IntentOf(c, b)
    requires MentionsOnly(IntentPreimage(a), keys) && MentionsOnly(IntentPreimage(b), keys)
    requires a.authorizationNonce == b.authorizationNonce && a.payloadHash == b.payloadHash
    requires a.authorizedCapabilityHash == b.authorizedCapabilityHash
    ensures a == b
  {
    hide InPlay, Bytes;
    SameAddress(c, keys, digests, a.coreProgram, b.coreProgram);
    SameAddress(c, keys, digests, a.market, b.market);
    SameAddress(c, keys, digests, a.domain, b.domain);
    SameAddress(c, keys, digests, a.engineProgram, b.engineProgram);
    SameAddress(c, keys, digests, a.engineState, b.engineState);
    SameAddress(c, keys, digests, a.userAuthority, b.userAuthority);
    SameAddress(c, keys, digests, a.userInput, b.userInput);
    SameAddress(c, keys, digests, a.userOutput, b.userOutput);
    SameAddress(c, keys, digests, a.mintIn, b.mintIn);
    SameAddress(c, keys, digests, a.mintOut, b.mintOut);
    SameAddress(c, keys, digests, a.domainInputVault, b.domainInputVault);
    SameAddress(c, keys, digests, a.domainOutputVault, b.domainOutputVault);
    SameAddress(c, keys, digests, a.protocolFeeVault, b.protocolFeeVault);
    SameAddress(c, keys, digests, a.feeLedger, b.feeLedger);
    SameAddress(c, keys, digests, a.tokenProgram, b.tokenProgram);
  }

  lemma {:induction false} SameIntent(c: Concretion, keys: set<Key>, digests: set<Digest>, a: Intent, b: Intent)
    requires InPlay(c, keys, digests) && CollisionFree(c, digests) && IntentOf(c, a) == IntentOf(c, b)
    requires MentionsOnly(IntentPreimage(a), keys) && MentionsOnly(IntentPreimage(b), keys)
    requires CarriesOnly(IntentPreimage(a), digests) && CarriesOnly(IntentPreimage(b), digests)
    ensures a == b
    decreases a
  {
    hide InPlay, CollisionFree, Bytes;
    SameDigest(c, keys, digests, a.authorizationNonce, b.authorizationNonce);
    SameDigest(c, keys, digests, a.authorizedCapabilityHash, b.authorizedCapabilityHash);
    SameDigest(c, keys, digests, a.payloadHash, b.payloadHash);
    SameIntentKeys(c, keys, digests, a, b);
  }

  lemma {:induction false} SameExecution(c: Concretion, keys: set<Key>, digests: set<Digest>, a: Execution,
                                         b: Execution)
    requires InPlay(c, keys, digests) && CollisionFree(c, digests) && ExecutionOf(c, a) == ExecutionOf(c, b)
    requires MentionsOnly(ExecutionPreimage(a), keys) && MentionsOnly(ExecutionPreimage(b), keys)
    requires CarriesOnly(ExecutionPreimage(a), digests) && CarriesOnly(ExecutionPreimage(b), digests)
    ensures a == b
    decreases a
  {
    hide InPlay, CollisionFree, Bytes;
    SameDigest(c, keys, digests, a.intentDigest, b.intentDigest);
    SameDigest(c, keys, digests, a.phaseContextDigest, b.phaseContextDigest);
    SameDigest(c, keys, digests, a.authorizedCapabilityHash, b.authorizedCapabilityHash);
    SameDigest(c, keys, digests, a.phaseCapabilityHash, b.phaseCapabilityHash);
    SameAddress(c, keys, digests, a.market, b.market);
    SameAddress(c, keys, digests, a.domain, b.domain);
  }

  lemma {:induction false} SameReceipt(c: Concretion, keys: set<Key>, digests: set<Digest>, a: Receipt, b: Receipt)
    requires InPlay(c, keys, digests) && CollisionFree(c, digests) && ReceiptOf(c, a) == ReceiptOf(c, b)
    requires CarriesOnly(ReceiptPreimage(a), digests) && CarriesOnly(ReceiptPreimage(b), digests)
    ensures a == b
    decreases a
  {
    hide InPlay, CollisionFree, Bytes;
    SameDigest(c, keys, digests, a.intentDigest, b.intentDigest);
    SameDigest(c, keys, digests, a.executionDigest, b.executionDigest);
  }

  lemma {:induction false} SameSettlement(c: Concretion, keys: set<Key>, digests: set<Digest>,
                                          a: SettlementBinding<Digest>, b: SettlementBinding<Digest>)
    requires InPlay(c, keys, digests) && CollisionFree(c, digests) && SettlementOf(c, a) == SettlementOf(c, b)
    requires CarriesOnly(SettlementPreimage(a), digests) && CarriesOnly(SettlementPreimage(b), digests)
    ensures a == b
    decreases a
  {
    hide InPlay, CollisionFree, Bytes;
    SameDigest(c, keys, digests, a.intentDigest, b.intentDigest);
    SameDigest(c, keys, digests, a.primaryExecutionDigest, b.primaryExecutionDigest);
    SameDigest(c, keys, digests, a.primaryReceiptDigest, b.primaryReceiptDigest);
  }

  lemma {:induction false} SamePreimage(c: Concretion, keys: set<Key>, digests: set<Digest>,
                                        p: Preimage<Key, Digest>, q: Preimage<Key, Digest>)
    requires InPlay(c, keys, digests) && CollisionFree(c, digests) && PreimageOf(c, p) == PreimageOf(c, q)
    requires MentionsOnly(p, keys) && MentionsOnly(q, keys) && CarriesOnly(p, digests) && CarriesOnly(q, digests)
    ensures p == q
    decreases p
  {
    hide InPlay, CollisionFree, IntentOf, ExecutionOf, ReceiptOf, SettlementOf, DescriptorsOf;
    match p
    case CapabilityPreimage(program, ds) =>
      SameAddress(c, keys, digests, program, q.engineProgram);
      SameDescriptors(c, keys, digests, ds, q.descriptors);
    case PayloadPreimage(_) =>
    case IntentPreimage(b) => SameIntent(c, keys, digests, b, q.intent);
    case ExecutionPreimage(b) => SameExecution(c, keys, digests, b, q.execution);
    case ReceiptPreimage(b) => SameReceipt(c, keys, digests, b, q.receipt);
    case SettlementPreimage(b) => SameSettlement(c, keys, digests, b, q.settlement);
  }

  /**
   * Digests in play with the same bytes are the same digest: equal hashes come from equal encodings, and so
   * on inwards.
   */
  lemma {:induction false} SameDigest(c: Concretion, keys: set<Key>, digests: set<Digest>, d: Digest, e: Digest)
    requires InPlay(c, keys, digests) && CollisionFree(c, digests)
    requires d in digests && e in digests && Bytes(c, d) == Bytes(c, e)
    ensures d == e
    decreases d
  {
    hide MentionsOnly, CarriesOnly, PreimageOf, Preimages.PreimageBytes, Preimages.Hashable;
    if d.Sha? && e.Sha? {
      var p, q := d.preimage, e.preimage;
      assert d == Sha(p) && e == Sha(q);
      assert !Preimages.Collision(c.sha, Encoded(c, p), Encoded(c, q));
      Preimages.PreimagesInjective(PreimageOf(c, p), PreimageOf(c, q));
      SamePreimage(c, keys, digests, p, q);
    }
  }

  /**
   * What reading `Sha` as injective assumes, exactly. Over any set of digests in play, symbolic digests
   * and their 32 bytes are the same thing if and only if the hash has no collision among the encodings
   * in play and no raw value there coincides with another or with one of those hashes.
   */
  lemma FaithfulExactly(c: Concretion, keys: set<Key>, digests: set<Digest>)
    requires InPlay(c, keys, digests)
    ensures Faithful(c, digests) <==> CollisionFree(c, digests)
  {
    hide InPlay, PreimageOf, Preimages.PreimageBytes;
    if CollisionFree(c, digests) {
      forall d, e | d in digests && e in digests && Bytes(c, d) == Bytes(c, e) ensures d == e {
        SameDigest(c, keys, digests, d, e);
      }
    }
    if Faithful(c, digests) {
      forall m, n | Raw(m) in digests && Raw(n) in digests && c.raw(m) == c.raw(n) ensures m == n {
        assert Bytes(c, Raw(m)) == Bytes(c, Raw(n));
      }
      forall n, p | Raw(n) in digests && Sha(p) in digests ensures c.raw(n) != c.sha(Encoded(c, p)) {
        assert Bytes(c, Sha(p)) == c.sha(Encoded(c, p)) && Bytes(c, Raw(n)) == c.raw(n);
      }
      forall p, q | Sha(p) in digests && Sha(q) in digests
        ensures !Preimages.Collision(c.sha, Encoded(c, p), Encoded(c, q))
      {
        assert Bytes(c, Sha(p)) == c.sha(Encoded(c, p)) && Bytes(c, Sha(q)) == c.sha(Encoded(c, q));
      }
    }
  }

  // ---- The wire, in symbols ----

  /** A symbolic intent made of terms in play. */
  predicate IntentInPlay(b: Intent, keys: set<Key>, digests: set<Digest>) {
    MentionsOnly(IntentPreimage(b), keys) && CarriesOnly(IntentPreimage(b), digests)
  }

  /** The bytes of an intent decode exactly when its timing is known, to that intent and to no other one in play. */
  lemma IntentOnTheWire(c: Concretion, keys: set<Key>, digests: set<Digest>, b: Intent,
                        decoded: Result<Codec.Intent, CodecError>)
    requires InPlay(c, keys, digests) && CollisionFree(c, digests) && IntentInPlay(b, keys, digests)
    requires Codec.IntentDecodes(Codec.IntentBytes(IntentOf(c, b)), decoded)
    ensures KnownTiming(b.timingMode) <==> decoded == Result.Ok(IntentOf(c, b))
    ensures decoded.Ok? ==>
              forall a :: IntentInPlay(a, keys, digests) && decoded == Result.Ok(IntentOf(c, a)) ==> a == b
  {
    hide InPlay, CollisionFree, Codec.IntentBytes, Codec.IntentDecodes;
    Codec.IntentBijection(Codec.IntentBytes(IntentOf(c, b)), decoded, IntentOf(c, b));
    forall a | IntentInPlay(a, keys, digests) && decoded == Result.Ok(IntentOf(c, a)) ensures a == b {
      Codec.IntentBijection(Codec.IntentBytes(IntentOf(c, b)), decoded, IntentOf(c, a));
      Codec.IntentInjective(IntentOf(c, a), IntentOf(c, b));
      SameIntent(c, keys, digests, a, b);
    }
  }

  /** A symbolic request made of terms in play, along with the hash of its binding and the zero digest. */
  predicate RequestInPlay(c: Concretion, r: Request, keys: set<Key>, digests: set<Digest>) {
    && MentionsOnly(ExecutionPreimage(r.binding), keys) && CarriesOnly(ExecutionPreimage(r.binding), digests)
    && r.executionDigest in digests && ZERO in digests && c.raw(0) == Zero32()
    && (ValidateExecutionBinding(r.binding, ZERO).Ok? ==> Sha(ExecutionPreimage(r.binding)) in digests)
  }

  /** The engine's symbolic check of a request is the wire-level validation of its bytes. */
  lemma RequestChecksAgree(c: Concretion, keys: set<Key>, digests: set<Digest>, r: Request)
    requires InPlay(c, keys, digests) && CollisionFree(c, digests) && RequestInPlay(c, r, keys, digests)
    ensures PlanEngine.ValidRequest(r) <==> Requests.ValidateRequest(c.sha, RequestOf(c, r)).Ok?
  {
    hide InPlay, CollisionFree, Preimages.PreimageBytes;
    assert Bytes(c, ZERO) == Zero32();
    if Bytes(c, r.binding.phaseContextDigest) == Zero32() {
      SameDigest(c, keys, digests, r.binding.phaseContextDigest, ZERO);
    }
    var expected := Sha(ExecutionPreimage(r.binding));
    assert Bytes(c, expected) == c.sha(Preimages.PreimageBytes(ExecutionPreimage(ExecutionOf(c, r.binding))));
    if expected in digests && Bytes(c, r.executionDigest) == Bytes(c, expected) {
      SameDigest(c, keys, digests, r.executionDigest, expected);
    }
  }

  /**
   * So the bytes of an instruction decode exactly when the symbolic request is valid, to that request and to
   * no other one in play.
   */
  lemma RequestOnTheWire(c: Concretion, keys: set<Key>, digests: set<Digest>, r: Request,
                         decoded: Result<Codec.Request, CodecError>)
    requires InPlay(c, keys, digests) && CollisionFree(c, digests) && RequestInPlay(c, r, keys, digests)
    requires Requests.InstructionDecodes(c.sha, Requests.InstructionBytes(RequestOf(c, r)), decoded)
    ensures PlanEngine.ValidRequest(r) <==> decoded == Result.Ok(RequestOf(c, r))
    ensures decoded == Result.Ok(RequestOf(c, r)) ==>
              forall s :: RequestInPlay(c, s, keys, digests) && RequestOf(c, s) == RequestOf(c, r) ==> s == r
  {
    hide InPlay, CollisionFree, Requests.InstructionDecodes, Requests.InstructionBytes, Requests.ValidateRequest,
         PlanEngine.ValidRequest, ExecutionOf;
    RequestChecksAgree(c, keys, digests, r);
    Requests.InstructionBijection(c.sha, Requests.InstructionBytes(RequestOf(c, r)), decoded, RequestOf(c, r));
    forall s | RequestInPlay(c, s, keys, digests) && RequestOf(c, s) == RequestOf(c, r) ensures s == r {
      SameExecution(c, keys, digests, s.binding, r.binding);
      SameDigest(c, keys, digests, s.executionDigest, r.executionDigest);
    }
  }
}
