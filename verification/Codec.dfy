/**
 * The canonical encodings of the routed callback wire. Each record has a field list and its byte
 * string (the reference meaning); the encoders fill a buffer and the decoders move a cursor, and
 * their contracts make the two an exact bijection between valid records and accepted byte strings.
 */
module Codec {
  import opened Base
  import opened Bindings
  import opened Wire
  import opened Layouts

  type Intent = IntentBinding<Bytes32, Bytes32>
  type Execution = ExecutionBinding<Bytes32, Bytes32>
  type Request = EngineRequest<Bytes32, Bytes32>
  type Receipt = EngineReceipt<Bytes32>
  type Settlement = SettlementBinding<Bytes32>

  const RECEIPT_MAGIC: seq<byte> := [0x50, 0x4D, 0x42, 0x52, 0x43, 0x42, 0x30, 0x30]

  // ---- Layouts ----

  function Repeated(w: Shape, n: nat): (ws: seq<Shape>)
    ensures |ws| == n && forall i :: 0 <= i < n ==> ws[i] == w
  {
    seq(n, _ => w)
  }

  lemma {:induction false} LayoutLengthAppend(a: seq<Shape>, b: seq<Shape>)
    ensures LayoutLength(a + b) == LayoutLength(a) + LayoutLength(b)
  {
    if a == [] {
      assert a + b == b;
    } else {
      LayoutLengthAppend(a[1..], b);
      assert (a + b)[1..] == a[1..] + b;
    }
  }

  lemma {:induction false} LayoutLengthRepeated(w: Shape, n: nat)
    ensures LayoutLength(Repeated(w, n)) == n * Length(w)
  {
    if n > 0 {
      LayoutLengthRepeated(w, n - 1);
      assert Repeated(w, n)[1..] == Repeated(w, n - 1);
    }
  }

  lemma NumberWidths()
    ensures Pow256(1) == 0x100 && Pow256(2) == 0x1_0000 && Pow256(8) == 0x1_0000_0000_0000_0000
  {
    assert Pow256(4) == 0x1_0000_0000;
  }

  // ---- Where the fields lie ----

  lemma StartAt(fs: seq<Field>)
    ensures Reading(Serialized(fs), 0, fs, 0)
  {
    assert fs[0..] == fs;
  }

  // ---- Intent ----

  const INTENT_LEN: nat := 642

  function IntentLayout(): seq<Shape> {
    [NumShape(1), NumShape(1)]
    + Repeated(BlobShape(32), 15)
    + Repeated(NumShape(8), 8)
    + Repeated(BlobShape(32), 3)
  }

  function IntentPartiesField(b: Intent, i: nat): Field {
    match i
    case 0 => Num(1, PROBE_WIRE_VERSION)
    case 1 => Num(1, b.timingMode)
    case 2 => Blob(b.coreProgram)
    case 3 => Blob(b.market)
    case 4 => Blob(b.domain)
    case 5 => Blob(b.engineProgram)
    case 6 => Blob(b.engineState)
    case 7 => Blob(b.userAuthority)
    case _ => Blob(b.userInput)
  }

  function IntentCustodyField(b: Intent, i: nat): Field {
    match i
    case 9 => Blob(b.userOutput)
    case 10 => Blob(b.mintIn)
    case 11 => Blob(b.mintOut)
    case 12 => Blob(b.domainInputVault)
    case 13 => Blob(b.domainOutputVault)
    case 14 => Blob(b.protocolFeeVault)
    case 15 => Blob(b.feeLedger)
    case _ => Blob(b.tokenProgram)
  }

  function IntentTermsField(b: Intent, i: nat): Field {
    match i
    case 17 => Num(8, b.engineRevision)
    case 18 => Num(8, b.feePolicyRevision)
    case 19 => Num(8, b.amountIn)
    case 20 => Num(8, b.protocolFee)
    case 21 => Num(8, b.maxTotalInputDebit)
    case 22 => Num(8, b.minOutputCredit)
    case 23 => Num(8, b.maxProtocolFee)
    case 24 => Num(8, b.expiresAtSlot)
    case 25 => Blob(b.authorizationNonce)
    case 26 => Blob(b.authorizedCapabilityHash)
    case _ => Blob(b.payloadHash)
  }

  function IntentField(b: Intent, i: nat): Field {
    if i < 9 then IntentPartiesField(b, i) else
    if i < 17 then IntentCustodyField(b, i)
    else IntentTermsField(b, i)
  }

  function IntentFields(b: Intent): (fs: seq<Field>)
    ensures |fs| == 28 && forall i :: 0 <= i < 28 ==> fs[i] == IntentField(b, i)
  {
    seq(28, i requires 0 <= i => IntentField(b, i))
  }

  function IntentBytes(b: Intent): seq<byte> {
    Serialized(IntentFields(b))
  }

  lemma IntentFits(b: Intent)
    ensures FitsLayout(IntentFields(b), IntentLayout())
    ensures |IntentBytes(b)| == INTENT_LEN
  {
    NumberWidths();
    assert FitsLayout(IntentFields(b), IntentLayout());
    IntentLayoutLength();
    SerializedLength(IntentFields(b), IntentLayout());
  }

  lemma IntentLayoutLength()
    ensures LayoutLength(IntentLayout()) == INTENT_LEN
  {
    LayoutLengthRepeated(BlobShape(32), 15);
    LayoutLengthAppend([NumShape(1), NumShape(1)], Repeated(BlobShape(32), 15));
    LayoutLengthRepeated(NumShape(8), 8);
    LayoutLengthAppend([NumShape(1), NumShape(1)] + Repeated(BlobShape(32), 15), Repeated(NumShape(8), 8));
    LayoutLengthRepeated(BlobShape(32), 3);
    LayoutLengthAppend([NumShape(1), NumShape(1)] + Repeated(BlobShape(32), 15) + Repeated(NumShape(8), 8),
                       Repeated(BlobShape(32), 3));
  }

  lemma IntentInjective(b: Intent, c: Intent)
    requires IntentBytes(b) == IntentBytes(c)
    ensures b == c
  {
    IntentFits(b);
    IntentFits(c);
    SerializedInjective(IntentFields(b), IntentFields(c), IntentLayout());
    SameIntentParties(b, c);
    SameIntentCustody(b, c);
    SameIntentTerms(b, c);
  }

  lemma SameIntentParties(b: Intent, c: Intent)
    requires IntentFields(b) == IntentFields(c)
    ensures
      && b.timingMode == c.timingMode && b.coreProgram == c.coreProgram && b.market == c.market
      && b.domain == c.domain && b.engineProgram == c.engineProgram && b.engineState == c.engineState
      && b.userAuthority == c.userAuthority && b.userInput == c.userInput
  {
    var fs, gs := IntentFields(b), IntentFields(c);
    assert
      && fs[1] == gs[1] && fs[2] == gs[2] && fs[3] == gs[3] && fs[4] == gs[4] && fs[5] == gs[5]
      && fs[6] == gs[6] && fs[7] == gs[7] && fs[8] == gs[8];
  }

  lemma SameIntentCustody(b: Intent, c: Intent)
    requires IntentFields(b) == IntentFields(c)
    ensures
      && b.userOutput == c.userOutput && b.mintIn == c.mintIn && b.mintOut == c.mintOut
      && b.domainInputVault == c.domainInputVault && b.domainOutputVault == c.domainOutputVault
      && b.protocolFeeVault == c.protocolFeeVault && b.feeLedger == c.feeLedger
      && b.tokenProgram == c.tokenProgram
  {
    var fs, gs := IntentFields(b), IntentFields(c);
    assert
      && fs[9] == gs[9] && fs[10] == gs[10] && fs[11] == gs[11] && fs[12] == gs[12] && fs[13] == gs[13]
      && fs[14] == gs[14] && fs[15] == gs[15] && fs[16] == gs[16];
  }

  lemma SameIntentTerms(b: Intent, c: Intent)
    requires IntentFields(b) == IntentFields(c)
    ensures
      && b.engineRevision == c.engineRevision && b.feePolicyRevision == c.feePolicyRevision
      && b.amountIn == c.amountIn && b.protocolFee == c.protocolFee
      && b.maxTotalInputDebit == c.maxTotalInputDebit && b.minOutputCredit == c.minOutputCredit
      && b.maxProtocolFee == c.maxProtocolFee && b.expiresAtSlot == c.expiresAtSlot
      && b.authorizationNonce == c.authorizationNonce
      && b.authorizedCapabilityHash == c.authorizedCapabilityHash && b.payloadHash == c.payloadHash
  {
    var fs, gs := IntentFields(b), IntentFields(c);
    assert
      && fs[17] == gs[17] && fs[18] == gs[18] && fs[19] == gs[19] && fs[20] == gs[20] && fs[21] == gs[21]
      && fs[22] == gs[22] && fs[23] == gs[23] && fs[24] == gs[24] && fs[25] == gs[25] && fs[26] == gs[26]
      && fs[27] == gs[27];
  }

  lemma PartiesLie(data: seq<byte>, b: Intent)
    requires Reading(data, 2, IntentFields(b), 2)
    ensures 226 <= |data|
    ensures Holds(data, 2, b.coreProgram) && Holds(data, 34, b.market) && Holds(data, 66, b.domain)
    ensures Holds(data, 98, b.engineProgram) && Holds(data, 130, b.engineState)
    ensures Holds(data, 162, b.userAuthority) && Holds(data, 194, b.userInput)
    ensures Reading(data, 226, IntentFields(b), 9)
  {
    hide Reading, Word, Half, IntentFields;
    var plan := IntentFields(b);
    BlobAt(data, 2, plan, 2, b.coreProgram);
    BlobAt(data, 34, plan, 3, b.market);
    BlobAt(data, 66, plan, 4, b.domain);
    BlobAt(data, 98, plan, 5, b.engineProgram);
    BlobAt(data, 130, plan, 6, b.engineState);
    BlobAt(data, 162, plan, 7, b.userAuthority);
    BlobAt(data, 194, plan, 8, b.userInput);
  }

  lemma CustodyLies(data: seq<byte>, b: Intent)
    requires Reading(data, 226, IntentFields(b), 9)
    ensures 482 <= |data|
    ensures Holds(data, 226, b.userOutput) && Holds(data, 258, b.mintIn) && Holds(data, 290, b.mintOut)
    ensures Holds(data, 322, b.domainInputVault) && Holds(data, 354, b.domainOutputVault)
    ensures Holds(data, 386, b.protocolFeeVault) && Holds(data, 418, b.feeLedger)
    ensures Holds(data, 450, b.tokenProgram)
    ensures Reading(data, 482, IntentFields(b), 17)
  {
    hide Reading, Word, Half, IntentFields;
    var plan := IntentFields(b);
    BlobAt(data, 226, plan, 9, b.userOutput);
    BlobAt(data, 258, plan, 10, b.mintIn);
    BlobAt(data, 290, plan, 11, b.mintOut);
    BlobAt(data, 322, plan, 12, b.domainInputVault);
    BlobAt(data, 354, plan, 13, b.domainOutputVault);
    BlobAt(data, 386, plan, 14, b.protocolFeeVault);
    BlobAt(data, 418, plan, 15, b.feeLedger);
    BlobAt(data, 450, plan, 16, b.tokenProgram);
  }

  lemma TermsLie(data: seq<byte>, b: Intent)
    requires Reading(data, 482, IntentFields(b), 17)
    ensures 546 <= |data|
    ensures Word(data, 482) == b.engineRevision && Word(data, 490) == b.feePolicyRevision
    ensures Word(data, 498) == b.amountIn && Word(data, 506) == b.protocolFee
    ensures Word(data, 514) == b.maxTotalInputDebit && Word(data, 522) == b.minOutputCredit
    ensures Word(data, 530) == b.maxProtocolFee && Word(data, 538) == b.expiresAtSlot
    ensures Reading(data, 546, IntentFields(b), 25)
  {
    hide Reading, Word, Half, IntentFields;
    var plan := IntentFields(b);
    WordAt(data, 482, plan, 17, b.engineRevision);
    WordAt(data, 490, plan, 18, b.feePolicyRevision);
    WordAt(data, 498, plan, 19, b.amountIn);
    WordAt(data, 506, plan, 20, b.protocolFee);
    WordAt(data, 514, plan, 21, b.maxTotalInputDebit);
    WordAt(data, 522, plan, 22, b.minOutputCredit);
    WordAt(data, 530, plan, 23, b.maxProtocolFee);
    WordAt(data, 538, plan, 24, b.expiresAtSlot);
  }

  lemma HashesLie(data: seq<byte>, b: Intent)
    requires Reading(data, 546, IntentFields(b), 25)
    ensures 642 <= |data|
    ensures Holds(data, 546, b.authorizationNonce) && Holds(data, 578, b.authorizedCapabilityHash)
    ensures Holds(data, 610, b.payloadHash)
    ensures Reading(data, 642, IntentFields(b), 28)
  {
    hide Reading, Word, Half, IntentFields;
    var plan := IntentFields(b);
    BlobAt(data, 546, plan, 25, b.authorizationNonce);
    BlobAt(data, 578, plan, 26, b.authorizedCapabilityHash);
    BlobAt(data, 610, plan, 27, b.payloadHash);
  }

  lemma IntentOffsets(b: Intent)
    ensures IntentLaidOut(IntentBytes(b), b)
  {
    IntentFits(b);
    hide Reading, Word, Half, IntentFields, Serialized, FitsLayout;
    var data, plan := IntentBytes(b), IntentFields(b);
    StartAt(plan);
    ByteAt(data, 0, plan, 0, PROBE_WIRE_VERSION);
    ByteAt(data, 1, plan, 1, b.timingMode);
    PartiesLie(data, b);
    CustodyLies(data, b);
    TermsLie(data, b);
    HashesLie(data, b);
  }

  method PutIntentParties(output: array<byte>, at: nat, b: Intent) returns (cursor: nat)
    requires Wrote(output, at, IntentFields(b), 0)
    modifies output
    ensures Wrote(output, cursor, IntentFields(b), 9)
  {
    hide Serialized, Wrote, FitsLayout, IntentFields;
    ghost var plan := IntentFields(b);
    cursor := at;
    cursor := PutU8(output, cursor, PROBE_WIRE_VERSION, plan, 0);
    cursor := PutU8(output, cursor, b.timingMode, plan, 1);
    cursor := PutBytes(output, cursor, b.coreProgram, plan, 2);
    cursor := PutBytes(output, cursor, b.market, plan, 3);
    cursor := PutBytes(output, cursor, b.domain, plan, 4);
    cursor := PutBytes(output, cursor, b.engineProgram, plan, 5);
    cursor := PutBytes(output, cursor, b.engineState, plan, 6);
    cursor := PutBytes(output, cursor, b.userAuthority, plan, 7);
    cursor := PutBytes(output, cursor, b.userInput, plan, 8);
  }

  method PutIntentCustody(output: array<byte>, at: nat, b: Intent) returns (cursor: nat)
    requires Wrote(output, at, IntentFields(b), 9)
    modifies output
    ensures Wrote(output, cursor, IntentFields(b), 17)
  {
    hide Serialized, Wrote, FitsLayout, IntentFields;
    ghost var plan := IntentFields(b);
    cursor := at;
    cursor := PutBytes(output, cursor, b.userOutput, plan, 9);
    cursor := PutBytes(output, cursor, b.mintIn, plan, 10);
    cursor := PutBytes(output, cursor, b.mintOut, plan, 11);
    cursor := PutBytes(output, cursor, b.domainInputVault, plan, 12);
    cursor := PutBytes(output, cursor, b.domainOutputVault, plan, 13);
    cursor := PutBytes(output, cursor, b.protocolFeeVault, plan, 14);
    cursor := PutBytes(output, cursor, b.feeLedger, plan, 15);
    cursor := PutBytes(output, cursor, b.tokenProgram, plan, 16);
  }

  method PutIntentAmounts(output: array<byte>, at: nat, b: Intent) returns (cursor: nat)
    requires Wrote(output, at, IntentFields(b), 17)
    modifies output
    ensures Wrote(output, cursor, IntentFields(b), 21)
  {
    hide Serialized, Wrote, FitsLayout, IntentFields;
    ghost var plan := IntentFields(b);
    cursor := at;
    cursor := PutU64(output, cursor, b.engineRevision, plan, 17);
    cursor := PutU64(output, cursor, b.feePolicyRevision, plan, 18);
    cursor := PutU64(output, cursor, b.amountIn, plan, 19);
    cursor := PutU64(output, cursor, b.protocolFee, plan, 20);
  }

  method PutIntentBounds(output: array<byte>, at: nat, b: Intent) returns (cursor: nat)
    requires Wrote(output, at, IntentFields(b), 21)
    modifies output
    ensures Wrote(output, cursor, IntentFields(b), 25)
  {
    hide Serialized, Wrote, FitsLayout, IntentFields;
    ghost var plan := IntentFields(b);
    cursor := at;
    cursor := PutU64(output, cursor, b.maxTotalInputDebit, plan, 21);
    cursor := PutU64(output, cursor, b.minOutputCredit, plan, 22);
    cursor := PutU64(output, cursor, b.maxProtocolFee, plan, 23);
    cursor := PutU64(output, cursor, b.expiresAtSlot, plan, 24);
  }

  method PutIntentHashes(output: array<byte>, at: nat, b: Intent) returns (cursor: nat)
    requires Wrote(output, at, IntentFields(b), 25)
    modifies output
    ensures Wrote(output, cursor, IntentFields(b), 28)
  {
    hide Serialized, Wrote, FitsLayout, IntentFields;
    ghost var plan := IntentFields(b);
    cursor := at;
    cursor := PutBytes(output, cursor, b.authorizationNonce, plan, 25);
    cursor := PutBytes(output, cursor, b.authorizedCapabilityHash, plan, 26);
    cursor := PutBytes(output, cursor, b.payloadHash, plan, 27);
  }

  method EncodeIntent(b: Intent) returns (encoded: Result<seq<byte>, CodecError>)
    ensures encoded == if KnownTiming(b.timingMode) then Ok(IntentBytes(b))
      else Err(UnsupportedTimingMode(b.timingMode))
    ensures encoded.Ok? ==> |encoded.value| == INTENT_LEN
    ensures encoded.Ok? ==> IntentLaidOut(encoded.value, b)
  {
    hide Serialized, Wrote, FitsLayout, IntentFields, IntentLaidOut;
    :- Need(KnownTiming(b.timingMode), UnsupportedTimingMode(b.timingMode));
    IntentFits(b);
    IntentOffsets(b);
    ghost var plan := IntentFields(b);
    var output := NewOutput(INTENT_LEN, plan);
    var cursor := 0;
    cursor := PutIntentParties(output, cursor, b);
    cursor := PutIntentCustody(output, cursor, b);
    cursor := PutIntentAmounts(output, cursor, b);
    cursor := PutIntentBounds(output, cursor, b);
    cursor := PutIntentHashes(output, cursor, b);
    var bytes := Written(output, cursor, plan);
    return Ok(bytes);
  }

  /** What decoding a byte string must yield: the first failing check, or the one binding it encodes. */
  ghost predicate IntentDecodes(data: seq<byte>, decoded: Result<Intent, CodecError>) {
    if |data| != INTENT_LEN then decoded == Err(InvalidLength(INTENT_LEN, |data|))
    else if data[0] != PROBE_WIRE_VERSION then decoded == Err(UnsupportedVersion(data[0]))
    else if !KnownTiming(data[1]) then decoded == Err(UnsupportedTimingMode(data[1]))
    else decoded.Ok? && IntentBytes(decoded.value) == data
  }

  method GetIntentParties(data: seq<byte>, at: nat, ghost plan: seq<Field>)
    returns (cursor: nat, coreProgram: Bytes32, market: Bytes32, domain: Bytes32, engineProgram: Bytes32,
             engineState: Bytes32, userAuthority: Bytes32, userInput: Bytes32)
    requires FitsLayout(plan, IntentLayout()) && Reading(data, at, plan, 2)
    ensures Reading(data, cursor, plan, 9)
    ensures plan[2] == Blob(coreProgram) && plan[3] == Blob(market) && plan[4] == Blob(domain)
    ensures plan[5] == Blob(engineProgram) && plan[6] == Blob(engineState) && plan[7] == Blob(userAuthority)
    ensures plan[8] == Blob(userInput)
  {
    hide Serialized, Reading, LayoutLength;
    cursor := at;
    coreProgram := ReadBytes32(data, cursor, plan, 2);
    cursor := cursor + 32;
    market := ReadBytes32(data, cursor, plan, 3);
    cursor := cursor + 32;
    domain := ReadBytes32(data, cursor, plan, 4);
    cursor := cursor + 32;
    engineProgram := ReadBytes32(data, cursor, plan, 5);
    cursor := cursor + 32;
    engineState := ReadBytes32(data, cursor, plan, 6);
    cursor := cursor + 32;
    userAuthority := ReadBytes32(data, cursor, plan, 7);
    cursor := cursor + 32;
    userInput := ReadBytes32(data, cursor, plan, 8);
    cursor := cursor + 32;
  }

  method GetIntentCustody(data: seq<byte>, at: nat, ghost plan: seq<Field>)
    returns (cursor: nat, userOutput: Bytes32, mintIn: Bytes32, mintOut: Bytes32, domainInputVault: Bytes32,
             domainOutputVault: Bytes32, protocolFeeVault: Bytes32, feeLedger: Bytes32, tokenProgram: Bytes32)
    requires FitsLayout(plan, IntentLayout()) && Reading(data, at, plan, 9)
    ensures Reading(data, cursor, plan, 17)
    ensures plan[9] == Blob(userOutput) && plan[10] == Blob(mintIn) && plan[11] == Blob(mintOut)
    ensures plan[12] == Blob(domainInputVault) && plan[13] == Blob(domainOutputVault)
    ensures plan[14] == Blob(protocolFeeVault)
    ensures plan[15] == Blob(feeLedger) && plan[16] == Blob(tokenProgram)
  {
    hide Serialized, Reading, LayoutLength;
    cursor := at;
    userOutput := ReadBytes32(data, cursor, plan, 9);
    cursor := cursor + 32;
    mintIn := ReadBytes32(data, cursor, plan, 10);
    cursor := cursor + 32;
    mintOut := ReadBytes32(data, cursor, plan, 11);
    cursor := cursor + 32;
    domainInputVault := ReadBytes32(data, cursor, plan, 12);
    cursor := cursor + 32;
    domainOutputVault := ReadBytes32(data, cursor, plan, 13);
    cursor := cursor + 32;
    protocolFeeVault := ReadBytes32(data, cursor, plan, 14);
    cursor := cursor + 32;
    feeLedger := ReadBytes32(data, cursor, plan, 15);
    cursor := cursor + 32;
    tokenProgram := ReadBytes32(data, cursor, plan, 16);
    cursor := cursor + 32;
  }

  method GetIntentTerms(data: seq<byte>, at: nat, ghost plan: seq<Field>)
    returns (cursor: nat, engineRevision: u64, feePolicyRevision: u64, amountIn: u64, protocolFee: u64,
             maxTotalInputDebit: u64, minOutputCredit: u64, maxProtocolFee: u64, expiresAtSlot: u64,
             authorizationNonce: Bytes32, authorizedCapabilityHash: Bytes32, payloadHash: Bytes32)
    requires FitsLayout(plan, IntentLayout()) && Reading(data, at, plan, 17)
    ensures Reading(data, cursor, plan, 28)
    ensures plan[17] == Num(8, engineRevision) && plan[18] == Num(8, feePolicyRevision) && plan[19] == Num(8, amountIn)
    ensures plan[20] == Num(8, protocolFee) && plan[21] == Num(8, maxTotalInputDebit)
    ensures plan[22] == Num(8, minOutputCredit)
    ensures plan[23] == Num(8, maxProtocolFee) && plan[24] == Num(8, expiresAtSlot)
    ensures plan[25] == Blob(authorizationNonce)
    ensures plan[26] == Blob(authorizedCapabilityHash) && plan[27] == Blob(payloadHash)
  {
    hide Serialized, Reading, LayoutLength;
    cursor := at;
    engineRevision := ReadU64(data, cursor, plan, 17);
    cursor := cursor + 8;
    feePolicyRevision := ReadU64(data, cursor, plan, 18);
    cursor := cursor + 8;
    amountIn := ReadU64(data, cursor, plan, 19);
    cursor := cursor + 8;
    protocolFee := ReadU64(data, cursor, plan, 20);
    cursor := cursor + 8;
    maxTotalInputDebit := ReadU64(data, cursor, plan, 21);
    cursor := cursor + 8;
    minOutputCredit := ReadU64(data, cursor, plan, 22);
    cursor := cursor + 8;
    maxProtocolFee := ReadU64(data, cursor, plan, 23);
    cursor := cursor + 8;
    expiresAtSlot := ReadU64(data, cursor, plan, 24);
    cursor := cursor + 8;
    authorizationNonce := ReadBytes32(data, cursor, plan, 25);
    cursor := cursor + 32;
    authorizedCapabilityHash := ReadBytes32(data, cursor, plan, 26);
    cursor := cursor + 32;
    payloadHash := ReadBytes32(data, cursor, plan, 27);
    cursor := cursor + 32;
  }

  predicate PartiesAt(plan: seq<Field>, b: Intent)
    requires |plan| == 28
  {
    && plan[0] == Num(1, PROBE_WIRE_VERSION) && plan[1] == Num(1, b.timingMode)
    && plan[2] == Blob(b.coreProgram) && plan[3] == Blob(b.market) && plan[4] == Blob(b.domain)
    && plan[5] == Blob(b.engineProgram) && plan[6] == Blob(b.engineState) && plan[7] == Blob(b.userAuthority)
    && plan[8] == Blob(b.userInput)
  }

  lemma PartiesAssembled(plan: seq<Field>, b: Intent)
    requires |plan| == 28 && PartiesAt(plan, b)
    ensures forall i :: 0 <= i < 9 ==> plan[i] == IntentField(b, i)
  {
  }

  predicate CustodyAt(plan: seq<Field>, b: Intent)
    requires |plan| == 28
  {
    && plan[9] == Blob(b.userOutput) && plan[10] == Blob(b.mintIn) && plan[11] == Blob(b.mintOut)
    && plan[12] == Blob(b.domainInputVault) && plan[13] == Blob(b.domainOutputVault)
    && plan[14] == Blob(b.protocolFeeVault) && plan[15] == Blob(b.feeLedger) && plan[16] == Blob(b.tokenProgram)
  }

  lemma CustodyAssembled(plan: seq<Field>, b: Intent)
    requires |plan| == 28 && CustodyAt(plan, b)
    ensures forall i :: 9 <= i < 17 ==> plan[i] == IntentField(b, i)
  {
  }

  predicate TermsAt(plan: seq<Field>, b: Intent)
    requires |plan| == 28
  {
    && plan[17] == Num(8, b.engineRevision) && plan[18] == Num(8, b.feePolicyRevision)
    && plan[19] == Num(8, b.amountIn) && plan[20] == Num(8, b.protocolFee)
    && plan[21] == Num(8, b.maxTotalInputDebit) && plan[22] == Num(8, b.minOutputCredit)
    && plan[23] == Num(8, b.maxProtocolFee) && plan[24] == Num(8, b.expiresAtSlot)
    && plan[25] == Blob(b.authorizationNonce) && plan[26] == Blob(b.authorizedCapabilityHash)
    && plan[27] == Blob(b.payloadHash)
  }

  lemma TermsAssembled(plan: seq<Field>, b: Intent)
    requires |plan| == 28 && TermsAt(plan, b)
    ensures forall i :: 17 <= i < 28 ==> plan[i] == IntentField(b, i)
  {
  }

  lemma IntentAssembled(plan: seq<Field>, b: Intent)
    requires |plan| == 28 && PartiesAt(plan, b) && CustodyAt(plan, b) && TermsAt(plan, b)
    ensures plan == IntentFields(b)
  {
    hide IntentFields, IntentField, PartiesAt, CustodyAt, TermsAt;
    PartiesAssembled(plan, b);
    CustodyAssembled(plan, b);
    TermsAssembled(plan, b);
  }

  method DecodeIntent(data: seq<byte>) returns (decoded: Result<Intent, CodecError>)
    ensures IntentDecodes(data, decoded)
    ensures decoded.Ok? ==> IntentLaidOut(data, decoded.value)
  {
    hide Serialized, Reading, Parsed, LayoutLength, IntentFields, IntentLaidOut;
    :- Need(|data| == INTENT_LEN, InvalidLength(INTENT_LEN, |data|));
    IntentLayoutLength();
    ghost var plan := Parsed(IntentLayout(), data);
    StartReading(data, IntentLayout());
    var cursor := 0;
    var version := ReadU8(data, cursor, plan, 0);
    cursor := cursor + 1;
    :- Need(version == PROBE_WIRE_VERSION, UnsupportedVersion(version));
    var timingMode := ReadU8(data, cursor, plan, 1);
    cursor := cursor + 1;
    :- Need(KnownTiming(timingMode), UnsupportedTimingMode(timingMode));
    var custody, coreProgram, market, domain, engineProgram, engineState, userAuthority, userInput :=
      GetIntentParties(data, cursor, plan);
    var terms, userOutput, mintIn, mintOut, domainInputVault, domainOutputVault, protocolFeeVault, feeLedger,
        tokenProgram :=
      GetIntentCustody(data, custody, plan);
    var end, engineRevision, feePolicyRevision, amountIn, protocolFee, maxTotalInputDebit, minOutputCredit,
        maxProtocolFee, expiresAtSlot, authorizationNonce, authorizedCapabilityHash, payloadHash :=
      GetIntentTerms(data, terms, plan);
    var binding := IntentBinding(
      timingMode, coreProgram, market, domain, engineProgram, engineState, userAuthority, userInput, userOutput,
      mintIn, mintOut, domainInputVault, domainOutputVault, protocolFeeVault, feeLedger, tokenProgram,
      engineRevision, feePolicyRevision, amountIn, protocolFee, maxTotalInputDebit, minOutputCredit,
      maxProtocolFee, expiresAtSlot, authorizationNonce, authorizedCapabilityHash, payloadHash);
    IntentAssembled(plan, binding);
    IntentOffsets(binding);
    return Ok(binding);
  }

  /**
   * The encoder and the decoder are inverse: a byte string decodes to `c` exactly when `c` is valid and
   * encodes to it.
   */
  lemma IntentBijection(data: seq<byte>, decoded: Result<Intent, CodecError>, c: Intent)
    requires IntentDecodes(data, decoded)
    ensures KnownTiming(c.timingMode) && IntentBytes(c) == data <==> decoded == Ok(c)
  {
    IntentHead(c);
    if IntentBytes(c) == data {
      if decoded.Ok? {
        IntentInjective(c, decoded.value);
      }
    }
  }

  lemma IntentHead(c: Intent)
    ensures |IntentBytes(c)| == INTENT_LEN
    ensures IntentBytes(c)[0] == PROBE_WIRE_VERSION && IntentBytes(c)[1] == c.timingMode
  {
    IntentFits(c);
    var fs := IntentFields(c);
    assert Serialized(fs) == FieldBytes(fs[0]) + Serialized(fs[1..]);
    assert Serialized(fs[1..]) == FieldBytes(fs[1]) + Serialized(fs[2..]);
  }

  // ---- Execution ----

  const EXECUTION_LEN: nat := 382

  function ExecutionLayout(): seq<Shape> {
    [NumShape(1), NumShape(1)]
    + Repeated(BlobShape(32), 4)
    + Repeated(NumShape(8), 7)
    + [BlobShape(32), BlobShape(32), NumShape(2), NumShape(2), BlobShape(128)]
  }

  function ExecutionIdentityField(b: Execution, i: nat): Field {
    match i
    case 0 => Num(1, PROBE_WIRE_VERSION)
    case 1 => Num(1, b.phase)
    case 2 => Blob(b.intentDigest)
    case 3 => Blob(b.phaseContextDigest)
    case 4 => Blob(b.market)
    case _ => Blob(b.domain)
  }

  function ExecutionStateField(b: Execution, i: nat): Field {
    match i
    case 6 => Num(8, b.engineRevision)
    case 7 => Num(8, b.amountIn)
    case 8 => Num(8, b.protocolFee)
    case 9 => Num(8, b.accountedInputBefore)
    case 10 => Num(8, b.accountedOutputBefore)
    case 11 => Num(8, b.accountedFeeBefore)
    case _ => Num(8, b.preSequence)
  }

  function ExecutionClosureField(b: Execution, i: nat): Field {
    match i
    case 13 => Blob(b.authorizedCapabilityHash)
    case 14 => Blob(b.phaseCapabilityHash)
    case 15 => Num(2, b.opaqueAccountCount)
    case 16 => Num(2, b.payloadLen)
    case _ => Blob(b.payload)
  }

  function ExecutionField(b: Execution, i: nat): Field {
    if i < 6 then ExecutionIdentityField(b, i) else
    if i < 13 then ExecutionStateField(b, i)
    else ExecutionClosureField(b, i)
  }

  function ExecutionFields(b: Execution): (fs: seq<Field>)
    ensures |fs| == 18 && forall i :: 0 <= i < 18 ==> fs[i] == ExecutionField(b, i)
  {
    seq(18, i requires 0 <= i => ExecutionField(b, i))
  }

  function ExecutionBytes(b: Execution): seq<byte> {
    Serialized(ExecutionFields(b))
  }

  lemma ExecutionFits(b: Execution)
    ensures FitsLayout(ExecutionFields(b), ExecutionLayout())
    ensures |ExecutionBytes(b)| == EXECUTION_LEN
  {
    NumberWidths();
    assert FitsLayout(ExecutionFields(b), ExecutionLayout());
    ExecutionLayoutLength();
    SerializedLength(ExecutionFields(b), ExecutionLayout());
  }

  lemma ExecutionLayoutLength()
    ensures LayoutLength(ExecutionLayout()) == EXECUTION_LEN
  {
    LayoutLengthRepeated(BlobShape(32), 4);
    LayoutLengthAppend([NumShape(1), NumShape(1)], Repeated(BlobShape(32), 4));
    LayoutLengthRepeated(NumShape(8), 7);
    LayoutLengthAppend([NumShape(1), NumShape(1)] + Repeated(BlobShape(32), 4), Repeated(NumShape(8), 7));
    LayoutLengthAppend([NumShape(1), NumShape(1)] + Repeated(BlobShape(32), 4) + Repeated(NumShape(8), 7),
                       [BlobShape(32), BlobShape(32), NumShape(2), NumShape(2), BlobShape(128)]);
  }

  lemma ExecutionInjective(b: Execution, c: Execution)
    requires ExecutionBytes(b) == ExecutionBytes(c)
    ensures b == c
  {
    ExecutionFits(b);
    ExecutionFits(c);
    SerializedInjective(ExecutionFields(b), ExecutionFields(c), ExecutionLayout());
    SameExecutionIdentity(b, c);
    SameExecutionState(b, c);
    SameExecutionClosure(b, c);
  }

  lemma SameExecutionIdentity(b: Execution, c: Execution)
    requires ExecutionFields(b) == ExecutionFields(c)
    ensures
      && b.phase == c.phase && b.intentDigest == c.intentDigest && b.phaseContextDigest == c.phaseContextDigest
      && b.market == c.market && b.domain == c.domain
  {
    var fs, gs := ExecutionFields(b), ExecutionFields(c);
    assert
      && fs[1] == gs[1] && fs[2] == gs[2] && fs[3] == gs[3] && fs[4] == gs[4] && fs[5] == gs[5];
  }

  lemma SameExecutionState(b: Execution, c: Execution)
    requires ExecutionFields(b) == ExecutionFields(c)
    ensures
      && b.engineRevision == c.engineRevision && b.amountIn == c.amountIn && b.protocolFee == c.protocolFee
      && b.accountedInputBefore == c.accountedInputBefore && b.accountedOutputBefore == c.accountedOutputBefore
      && b.accountedFeeBefore == c.accountedFeeBefore && b.preSequence == c.preSequence
  {
    var fs, gs := ExecutionFields(b), ExecutionFields(c);
    assert
      && fs[6] == gs[6] && fs[7] == gs[7] && fs[8] == gs[8] && fs[9] == gs[9] && fs[10] == gs[10]
      && fs[11] == gs[11] && fs[12] == gs[12];
  }

  lemma SameExecutionClosure(b: Execution, c: Execution)
    requires ExecutionFields(b) == ExecutionFields(c)
    ensures
      && b.authorizedCapabilityHash == c.authorizedCapabilityHash
      && b.phaseCapabilityHash == c.phaseCapabilityHash && b.opaqueAccountCount == c.opaqueAccountCount
      && b.payloadLen == c.payloadLen && b.payload == c.payload
  {
    var fs, gs := ExecutionFields(b), ExecutionFields(c);
    assert
      && fs[13] == gs[13] && fs[14] == gs[14] && fs[15] == gs[15] && fs[16] == gs[16] && fs[17] == gs[17];
  }

  lemma IdentityLies(data: seq<byte>, b: Execution)
    requires Reading(data, 2, ExecutionFields(b), 2)
    ensures 130 <= |data|
    ensures Holds(data, 2, b.intentDigest) && Holds(data, 34, b.phaseContextDigest) && Holds(data, 66, b.market)
    ensures Holds(data, 98, b.domain)
    ensures Reading(data, 130, ExecutionFields(b), 6)
  {
    hide Reading, Word, Half, ExecutionFields;
    var plan := ExecutionFields(b);
    BlobAt(data, 2, plan, 2, b.intentDigest);
    BlobAt(data, 34, plan, 3, b.phaseContextDigest);
    BlobAt(data, 66, plan, 4, b.market);
    BlobAt(data, 98, plan, 5, b.domain);
  }

  lemma StateLies(data: seq<byte>, b: Execution)
    requires Reading(data, 130, ExecutionFields(b), 6)
    ensures 186 <= |data|
    ensures Word(data, 130) == b.engineRevision && Word(data, 138) == b.amountIn
    ensures Word(data, 146) == b.protocolFee && Word(data, 154) == b.accountedInputBefore
    ensures Word(data, 162) == b.accountedOutputBefore && Word(data, 170) == b.accountedFeeBefore
    ensures Word(data, 178) == b.preSequence
    ensures Reading(data, 186, ExecutionFields(b), 13)
  {
    hide Reading, Word, Half, ExecutionFields;
    var plan := ExecutionFields(b);
    WordAt(data, 130, plan, 6, b.engineRevision);
    WordAt(data, 138, plan, 7, b.amountIn);
    WordAt(data, 146, plan, 8, b.protocolFee);
    WordAt(data, 154, plan, 9, b.accountedInputBefore);
    WordAt(data, 162, plan, 10, b.accountedOutputBefore);
    WordAt(data, 170, plan, 11, b.accountedFeeBefore);
    WordAt(data, 178, plan, 12, b.preSequence);
  }

  lemma ClosureLies(data: seq<byte>, b: Execution)
    requires Reading(data, 186, ExecutionFields(b), 13)
    ensures 254 <= |data|
    ensures Holds(data, 186, b.authorizedCapabilityHash) && Holds(data, 218, b.phaseCapabilityHash)
    ensures Half(data, 250) == b.opaqueAccountCount && Half(data, 252) == b.payloadLen
    ensures Reading(data, 254, ExecutionFields(b), 17)
  {
    hide Reading, Word, Half, ExecutionFields;
    var plan := ExecutionFields(b);
    BlobAt(data, 186, plan, 13, b.authorizedCapabilityHash);
    BlobAt(data, 218, plan, 14, b.phaseCapabilityHash);
    HalfAt(data, 250, plan, 15, b.opaqueAccountCount);
    HalfAt(data, 252, plan, 16, b.payloadLen);
  }

  lemma ExecutionOffsets(b: Execution)
    ensures ExecutionLaidOut(ExecutionBytes(b), b)
  {
    ExecutionFits(b);
    hide Reading, Word, Half, ExecutionFields, Serialized, FitsLayout;
    var data, plan := ExecutionBytes(b), ExecutionFields(b);
    StartAt(plan);
    ByteAt(data, 0, plan, 0, PROBE_WIRE_VERSION);
    ByteAt(data, 1, plan, 1, b.phase);
    IdentityLies(data, b);
    StateLies(data, b);
    ClosureLies(data, b);
    BlobAt(data, 254, plan, 17, b.payload);
  }

  method PutExecutionIdentity(output: array<byte>, at: nat, b: Execution) returns (cursor: nat)
    requires Wrote(output, at, ExecutionFields(b), 0)
    modifies output
    ensures Wrote(output, cursor, ExecutionFields(b), 6)
  {
    hide Serialized, Wrote, FitsLayout, ExecutionFields;
    ghost var plan := ExecutionFields(b);
    cursor := at;
    cursor := PutU8(output, cursor, PROBE_WIRE_VERSION, plan, 0);
    cursor := PutU8(output, cursor, b.phase, plan, 1);
    cursor := PutBytes(output, cursor, b.intentDigest, plan, 2);
    cursor := PutBytes(output, cursor, b.phaseContextDigest, plan, 3);
    cursor := PutBytes(output, cursor, b.market, plan, 4);
    cursor := PutBytes(output, cursor, b.domain, plan, 5);
  }

  method PutExecutionState(output: array<byte>, at: nat, b: Execution) returns (cursor: nat)
    requires Wrote(output, at, ExecutionFields(b), 6)
    modifies output
    ensures Wrote(output, cursor, ExecutionFields(b), 13)
  {
    hide Serialized, Wrote, FitsLayout, ExecutionFields;
    ghost var plan := ExecutionFields(b);
    cursor := at;
    cursor := PutU64(output, cursor, b.engineRevision, plan, 6);
    cursor := PutU64(output, cursor, b.amountIn, plan, 7);
    cursor := PutU64(output, cursor, b.protocolFee, plan, 8);
    cursor := PutU64(output, cursor, b.accountedInputBefore, plan, 9);
    cursor := PutU64(output, cursor, b.accountedOutputBefore, plan, 10);
    cursor := PutU64(output, cursor, b.accountedFeeBefore, plan, 11);
    cursor := PutU64(output, cursor, b.preSequence, plan, 12);
  }

  method PutExecutionClosure(output: array<byte>, at: nat, b: Execution) returns (cursor: nat)
    requires Wrote(output, at, ExecutionFields(b), 13)
    modifies output
    ensures Wrote(output, cursor, ExecutionFields(b), 18)
  {
    hide Serialized, Wrote, FitsLayout, ExecutionFields;
    ghost var plan := ExecutionFields(b);
    cursor := at;
    cursor := PutBytes(output, cursor, b.authorizedCapabilityHash, plan, 13);
    cursor := PutBytes(output, cursor, b.phaseCapabilityHash, plan, 14);
    cursor := PutU16(output, cursor, b.opaqueAccountCount, plan, 15);
    cursor := PutU16(output, cursor, b.payloadLen, plan, 16);
    cursor := PutBytes(output, cursor, b.payload, plan, 17);
  }

  method EncodeExecution(b: Execution) returns (encoded: Result<seq<byte>, CodecError>)
    ensures encoded == if ValidateExecutionBinding(b, Zero32()).Ok? then Ok(ExecutionBytes(b))
      else Err(ValidateExecutionBinding(b, Zero32()).error)
    ensures encoded.Ok? ==> |encoded.value| == EXECUTION_LEN
    ensures encoded.Ok? ==> ExecutionLaidOut(encoded.value, b)
  {
    hide Serialized, Wrote, FitsLayout, ExecutionFields, ExecutionLaidOut;
    var _ :- ValidateExecutionBinding(b, Zero32());
    ExecutionFits(b);
    ExecutionOffsets(b);
    ghost var plan := ExecutionFields(b);
    var output := NewOutput(EXECUTION_LEN, plan);
    var cursor := 0;
    cursor := PutExecutionIdentity(output, cursor, b);
    cursor := PutExecutionState(output, cursor, b);
    cursor := PutExecutionClosure(output, cursor, b);
    var bytes := Written(output, cursor, plan);
    return Ok(bytes);
  }

  /** What decoding a byte string must yield: the first failing check, or the one binding it encodes. */
  ghost predicate ExecutionDecodes(data: seq<byte>, decoded: Result<Execution, CodecError>) {
    if |data| != EXECUTION_LEN then decoded == Err(InvalidLength(EXECUTION_LEN, |data|))
    else if data[0] != PROBE_WIRE_VERSION then decoded == Err(UnsupportedVersion(data[0]))
    else exists c: Execution :: ExecutionBytes(c) == data && decoded == Validated(c)
  }

  function Validated(b: Execution): Result<Execution, CodecError> {
    var _ :- ValidateExecutionBinding(b, Zero32());
    Ok(b)
  }

  method DecodeExecution(data: seq<byte>) returns (decoded: Result<Execution, CodecError>)
    ensures ExecutionDecodes(data, decoded)
    ensures decoded.Ok? ==> ExecutionLaidOut(data, decoded.value)
  {
    hide Serialized, Reading, Parsed, LayoutLength, ExecutionLaidOut;
    :- Need(|data| == EXECUTION_LEN, InvalidLength(EXECUTION_LEN, |data|));
    ExecutionLayoutLength();
    ghost var plan := Parsed(ExecutionLayout(), data);
    StartReading(data, ExecutionLayout());
    assert FitsLayout(plan, ExecutionLayout());
    var cursor := 0;
    var version := ReadU8(data, cursor, plan, 0);
    cursor := cursor + 1;
    :- Need(version == PROBE_WIRE_VERSION, UnsupportedVersion(version));
    var phase := ReadU8(data, cursor, plan, 1);
    cursor := cursor + 1;
    var intentDigest := ReadBytes32(data, cursor, plan, 2);
    cursor := cursor + 32;
    var phaseContextDigest := ReadBytes32(data, cursor, plan, 3);
    cursor := cursor + 32;
    var market := ReadBytes32(data, cursor, plan, 4);
    cursor := cursor + 32;
    var domain := ReadBytes32(data, cursor, plan, 5);
    cursor := cursor + 32;
    var engineRevision := ReadU64(data, cursor, plan, 6);
    cursor := cursor + 8;
    var amountIn := ReadU64(data, cursor, plan, 7);
    cursor := cursor + 8;
    var protocolFee := ReadU64(data, cursor, plan, 8);
    cursor := cursor + 8;
    var accountedInputBefore := ReadU64(data, cursor, plan, 9);
    cursor := cursor + 8;
    var accountedOutputBefore := ReadU64(data, cursor, plan, 10);
    cursor := cursor + 8;
    var accountedFeeBefore := ReadU64(data, cursor, plan, 11);
    cursor := cursor + 8;
    var preSequence := ReadU64(data, cursor, plan, 12);
    cursor := cursor + 8;
    var authorizedCapabilityHash := ReadBytes32(data, cursor, plan, 13);
    cursor := cursor + 32;
    var phaseCapabilityHash := ReadBytes32(data, cursor, plan, 14);
    cursor := cursor + 32;
    var opaqueAccountCount := ReadU16(data, cursor, plan, 15);
    cursor := cursor + 2;
    var payloadLen := ReadU16(data, cursor, plan, 16);
    cursor := cursor + 2;
    var payload := ReadArray(data, cursor, 128, plan, 17);
    cursor := cursor + 128;
    var binding := ExecutionBinding(
      phase, intentDigest, phaseContextDigest, market, domain, engineRevision, amountIn, protocolFee,
      accountedInputBefore, accountedOutputBefore, accountedFeeBefore, preSequence, authorizedCapabilityHash,
      phaseCapabilityHash, opaqueAccountCount, payloadLen, payload);
    assert plan == ExecutionFields(binding);
    assert ExecutionBytes(binding) == data;
    ExecutionOffsets(binding);
    return Validated(binding);
  }

  /**
   * The encoder and the decoder are inverse: a byte string decodes to `c` exactly when `c` is valid and
   * encodes to it.
   */
  lemma ExecutionBijection(data: seq<byte>, decoded: Result<Execution, CodecError>, c: Execution)
    requires ExecutionDecodes(data, decoded)
    ensures ValidateExecutionBinding(c, Zero32()).Ok? && ExecutionBytes(c) == data <==> decoded == Ok(c)
  {
    ExecutionHead(c);
    if ExecutionBytes(c) == data {
      var d: Execution :| ExecutionBytes(d) == data && decoded == Validated(d);
      ExecutionInjective(c, d);
    }
  }

  lemma ExecutionHead(c: Execution)
    ensures |ExecutionBytes(c)| == EXECUTION_LEN
    ensures ExecutionBytes(c)[0] == PROBE_WIRE_VERSION
  {
    ExecutionFits(c);
    var fs := ExecutionFields(c);
    assert Serialized(fs) == FieldBytes(fs[0]) + Serialized(fs[1..]);
  }

  // ---- Receipt ----

  const RECEIPT_LEN: nat := 90

  function ReceiptLayout(): seq<Shape> {
    [BlobShape(8), NumShape(1), NumShape(1), BlobShape(32), BlobShape(32), NumShape(8), NumShape(8)]
  }

  function ReceiptField(r: Receipt, i: nat): Field {
    match i
    case 0 => Blob(RECEIPT_MAGIC)
    case 1 => Num(1, PROBE_WIRE_VERSION)
    case 2 => Num(1, r.phase)
    case 3 => Blob(r.intentDigest)
    case 4 => Blob(r.executionDigest)
    case 5 => Num(8, r.amountOut)
    case _ => Num(8, r.stateSequence)
  }

  function ReceiptFields(r: Receipt): (fs: seq<Field>)
    ensures |fs| == 7 && forall i :: 0 <= i < 7 ==> fs[i] == ReceiptField(r, i)
  {
    seq(7, i requires 0 <= i => ReceiptField(r, i))
  }

  function ReceiptBytes(r: Receipt): seq<byte> {
    Serialized(ReceiptFields(r))
  }

  lemma ReceiptFits(r: Receipt)
    ensures FitsLayout(ReceiptFields(r), ReceiptLayout())
    ensures |ReceiptBytes(r)| == RECEIPT_LEN
  {
    NumberWidths();
    assert FitsLayout(ReceiptFields(r), ReceiptLayout());
    ReceiptLayoutLength();
    SerializedLength(ReceiptFields(r), ReceiptLayout());
  }

  lemma ReceiptLayoutLength()
    ensures LayoutLength(ReceiptLayout()) == RECEIPT_LEN
  {
  }

  lemma ReceiptInjective(r: Receipt, c: Receipt)
    requires ReceiptBytes(r) == ReceiptBytes(c)
    ensures r == c
  {
    ReceiptFits(r);
    ReceiptFits(c);
    SerializedInjective(ReceiptFields(r), ReceiptFields(c), ReceiptLayout());
    SameReceiptReceipt(r, c);
  }

  lemma SameReceiptReceipt(r: Receipt, c: Receipt)
    requires ReceiptFields(r) == ReceiptFields(c)
    ensures
      && r.phase == c.phase && r.intentDigest == c.intentDigest && r.executionDigest == c.executionDigest
      && r.amountOut == c.amountOut && r.stateSequence == c.stateSequence
  {
    var fs, gs := ReceiptFields(r), ReceiptFields(c);
    assert
      && fs[2] == gs[2] && fs[3] == gs[3] && fs[4] == gs[4] && fs[5] == gs[5] && fs[6] == gs[6];
  }

  lemma DigestsLie(data: seq<byte>, r: Receipt)
    requires Reading(data, 10, ReceiptFields(r), 3)
    ensures 90 <= |data|
    ensures Holds(data, 10, r.intentDigest) && Holds(data, 42, r.executionDigest)
    ensures Word(data, 74) == r.amountOut && Word(data, 82) == r.stateSequence
    ensures Reading(data, 90, ReceiptFields(r), 7)
  {
    hide Reading, Word, Half, ReceiptFields;
    var plan := ReceiptFields(r);
    BlobAt(data, 10, plan, 3, r.intentDigest);
    BlobAt(data, 42, plan, 4, r.executionDigest);
    WordAt(data, 74, plan, 5, r.amountOut);
    WordAt(data, 82, plan, 6, r.stateSequence);
  }

  lemma ReceiptOffsets(r: Receipt)
    ensures ReceiptLaidOut(ReceiptBytes(r), r)
  {
    ReceiptFits(r);
    hide Reading, Word, Half, ReceiptFields, Serialized, FitsLayout;
    var data, plan := ReceiptBytes(r), ReceiptFields(r);
    StartAt(plan);
    BlobAt(data, 0, plan, 0, RECEIPT_MAGIC);
    ByteAt(data, 8, plan, 1, PROBE_WIRE_VERSION);
    ByteAt(data, 9, plan, 2, r.phase);
    DigestsLie(data, r);
  }

  method EncodeReceipt(r: Receipt) returns (encoded: Result<seq<byte>, CodecError>)
    ensures encoded == if KnownPhase(r.phase) then Ok(ReceiptBytes(r)) else Err(UnsupportedPhase(r.phase))
    ensures encoded.Ok? ==> |encoded.value| == RECEIPT_LEN
    ensures encoded.Ok? ==> ReceiptLaidOut(encoded.value, r)
  {
    hide Serialized, Wrote, FitsLayout, ReceiptFields, ReceiptLaidOut;
    :- Need(KnownPhase(r.phase), UnsupportedPhase(r.phase));
    ReceiptFits(r);
    ReceiptOffsets(r);
    ghost var plan := ReceiptFields(r);
    var output := NewOutput(RECEIPT_LEN, plan);
    var cursor := 0;
    cursor := PutBytes(output, cursor, RECEIPT_MAGIC, plan, 0);
    cursor := PutU8(output, cursor, PROBE_WIRE_VERSION, plan, 1);
    cursor := PutU8(output, cursor, r.phase, plan, 2);
    cursor := PutBytes(output, cursor, r.intentDigest, plan, 3);
    cursor := PutBytes(output, cursor, r.executionDigest, plan, 4);
    cursor := PutU64(output, cursor, r.amountOut, plan, 5);
    cursor := PutU64(output, cursor, r.stateSequence, plan, 6);
    var bytes := Written(output, cursor, plan);
    return Ok(bytes);
  }

  /** What decoding a byte string must yield: the first failing check, or the one binding it encodes. */
  ghost predicate ReceiptDecodes(data: seq<byte>, decoded: Result<Receipt, CodecError>) {
    if |data| != RECEIPT_LEN then decoded == Err(InvalidLength(RECEIPT_LEN, |data|))
    else if data[..8] != RECEIPT_MAGIC then decoded == Err(InvalidMagic)
    else if data[8] != PROBE_WIRE_VERSION then decoded == Err(UnsupportedVersion(data[8]))
    else if !KnownPhase(data[9]) then decoded == Err(UnsupportedPhase(data[9]))
    else decoded.Ok? && ReceiptBytes(decoded.value) == data
  }

  method DecodeReceipt(data: seq<byte>) returns (decoded: Result<Receipt, CodecError>)
    ensures ReceiptDecodes(data, decoded)
    ensures decoded.Ok? ==> ReceiptLaidOut(data, decoded.value)
  {
    hide Serialized, Reading, Parsed, LayoutLength, ReceiptLaidOut;
    :- Need(|data| == RECEIPT_LEN, InvalidLength(RECEIPT_LEN, |data|));
    ReceiptLayoutLength();
    ghost var plan := Parsed(ReceiptLayout(), data);
    StartReading(data, ReceiptLayout());
    assert FitsLayout(plan, ReceiptLayout());
    var cursor := 0;
    var magic := ReadArray(data, cursor, 8, plan, 0);
    cursor := cursor + 8;
    :- Need(magic == RECEIPT_MAGIC, InvalidMagic);
    var version := ReadU8(data, cursor, plan, 1);
    cursor := cursor + 1;
    :- Need(version == PROBE_WIRE_VERSION, UnsupportedVersion(version));
    var phase := ReadU8(data, cursor, plan, 2);
    cursor := cursor + 1;
    :- Need(KnownPhase(phase), UnsupportedPhase(phase));
    var intentDigest := ReadBytes32(data, cursor, plan, 3);
    cursor := cursor + 32;
    var executionDigest := ReadBytes32(data, cursor, plan, 4);
    cursor := cursor + 32;
    var amountOut := ReadU64(data, cursor, plan, 5);
    cursor := cursor + 8;
    var stateSequence := ReadU64(data, cursor, plan, 6);
    cursor := cursor + 8;
    var binding := EngineReceipt(
      phase, intentDigest, executionDigest, amountOut, stateSequence);
    assert plan == ReceiptFields(binding);
    ReceiptOffsets(binding);
    return Ok(binding);
  }

  /**
   * The encoder and the decoder are inverse: a byte string decodes to `c` exactly when `c` is valid and
   * encodes to it.
   */
  lemma ReceiptBijection(data: seq<byte>, decoded: Result<Receipt, CodecError>, c: Receipt)
    requires ReceiptDecodes(data, decoded)
    ensures KnownPhase(c.phase) && ReceiptBytes(c) == data <==> decoded == Ok(c)
  {
    ReceiptHead(c);
    if ReceiptBytes(c) == data {
      if decoded.Ok? {
        ReceiptInjective(c, decoded.value);
      }
    }
  }

  lemma ReceiptHead(c: Receipt)
    ensures |ReceiptBytes(c)| == RECEIPT_LEN
    ensures ReceiptBytes(c)[..8] == RECEIPT_MAGIC && ReceiptBytes(c)[8] == PROBE_WIRE_VERSION
    ensures ReceiptBytes(c)[9] == c.phase
  {
    ReceiptFits(c);
    var fs := ReceiptFields(c);
    assert Serialized(fs) == FieldBytes(fs[0]) + Serialized(fs[1..]);
    assert Serialized(fs[1..]) == FieldBytes(fs[1]) + Serialized(fs[2..]);
    assert Serialized(fs[2..]) == FieldBytes(fs[2]) + Serialized(fs[3..]);
  }

  // ---- Settlement ----

  const SETTLEMENT_LEN: nat := 217

  function SettlementLayout(): seq<Shape> {
    [NumShape(1)]
    + Repeated(BlobShape(32), 3)
    + Repeated(NumShape(8), 15)
  }

  function SettlementAmountsField(b: Settlement, i: nat): Field {
    match i
    case 0 => Num(1, PROBE_WIRE_VERSION)
    case 1 => Blob(b.intentDigest)
    case 2 => Blob(b.primaryExecutionDigest)
    case 3 => Blob(b.primaryReceiptDigest)
    case 4 => Num(8, b.amountIn)
    case 5 => Num(8, b.amountOut)
    case 6 => Num(8, b.protocolFee)
    case _ => Num(8, b.totalInputDebit)
  }

  function SettlementAccountingField(b: Settlement, i: nat): Field {
    match i
    case 8 => Num(8, b.accountedInputBefore)
    case 9 => Num(8, b.accountedOutputBefore)
    case 10 => Num(8, b.accountedFeeBefore)
    case 11 => Num(8, b.accountedInputAfter)
    case 12 => Num(8, b.accountedOutputAfter)
    case _ => Num(8, b.accountedFeeAfter)
  }

  function SettlementObservationsField(b: Settlement, i: nat): Field {
    match i
    case 14 => Num(8, b.observedSourceAfter)
    case 15 => Num(8, b.observedDestinationAfter)
    case 16 => Num(8, b.observedInputVaultAfter)
    case 17 => Num(8, b.observedOutputVaultAfter)
    case _ => Num(8, b.observedFeeVaultAfter)
  }

  function SettlementField(b: Settlement, i: nat): Field {
    if i < 8 then SettlementAmountsField(b, i) else
    if i < 14 then SettlementAccountingField(b, i)
    else SettlementObservationsField(b, i)
  }

  function SettlementFields(b: Settlement): (fs: seq<Field>)
    ensures |fs| == 19 && forall i :: 0 <= i < 19 ==> fs[i] == SettlementField(b, i)
  {
    seq(19, i requires 0 <= i => SettlementField(b, i))
  }

  function SettlementBytes(b: Settlement): seq<byte> {
    Serialized(SettlementFields(b))
  }

  lemma SettlementFits(b: Settlement)
    ensures FitsLayout(SettlementFields(b), SettlementLayout())
    ensures |SettlementBytes(b)| == SETTLEMENT_LEN
  {
    NumberWidths();
    assert FitsLayout(SettlementFields(b), SettlementLayout());
    SettlementLayoutLength();
    SerializedLength(SettlementFields(b), SettlementLayout());
  }

  lemma SettlementLayoutLength()
    ensures LayoutLength(SettlementLayout()) == SETTLEMENT_LEN
  {
    LayoutLengthRepeated(BlobShape(32), 3);
    LayoutLengthAppend([NumShape(1)], Repeated(BlobShape(32), 3));
    LayoutLengthRepeated(NumShape(8), 15);
    LayoutLengthAppend([NumShape(1)] + Repeated(BlobShape(32), 3), Repeated(NumShape(8), 15));
  }

  lemma SettlementInjective(b: Settlement, c: Settlement)
    requires SettlementBytes(b) == SettlementBytes(c)
    ensures b == c
  {
    SettlementFits(b);
    SettlementFits(c);
    SerializedInjective(SettlementFields(b), SettlementFields(c), SettlementLayout());
    SameSettlementAmounts(b, c);
    SameSettlementAccounting(b, c);
    SameSettlementObservations(b, c);
  }

  lemma SameSettlementAmounts(b: Settlement, c: Settlement)
    requires SettlementFields(b) == SettlementFields(c)
    ensures
      && b.intentDigest == c.intentDigest && b.primaryExecutionDigest == c.primaryExecutionDigest
      && b.primaryReceiptDigest == c.primaryReceiptDigest && b.amountIn == c.amountIn
      && b.amountOut == c.amountOut && b.protocolFee == c.protocolFee && b.totalInputDebit == c.totalInputDebit
  {
    var fs, gs := SettlementFields(b), SettlementFields(c);
    assert
      && fs[1] == gs[1] && fs[2] == gs[2] && fs[3] == gs[3] && fs[4] == gs[4] && fs[5] == gs[5]
      && fs[6] == gs[6] && fs[7] == gs[7];
  }

  lemma SameSettlementAccounting(b: Settlement, c: Settlement)
    requires SettlementFields(b) == SettlementFields(c)
    ensures
      && b.accountedInputBefore == c.accountedInputBefore && b.accountedOutputBefore == c.accountedOutputBefore
      && b.accountedFeeBefore == c.accountedFeeBefore && b.accountedInputAfter == c.accountedInputAfter
      && b.accountedOutputAfter == c.accountedOutputAfter && b.accountedFeeAfter == c.accountedFeeAfter
  {
    var fs, gs := SettlementFields(b), SettlementFields(c);
    assert
      && fs[8] == gs[8] && fs[9] == gs[9] && fs[10] == gs[10] && fs[11] == gs[11] && fs[12] == gs[12]
      && fs[13] == gs[13];
  }

  lemma SameSettlementObservations(b: Settlement, c: Settlement)
    requires SettlementFields(b) == SettlementFields(c)
    ensures
      && b.observedSourceAfter == c.observedSourceAfter
      && b.observedDestinationAfter == c.observedDestinationAfter
      && b.observedInputVaultAfter == c.observedInputVaultAfter
      && b.observedOutputVaultAfter == c.observedOutputVaultAfter
      && b.observedFeeVaultAfter == c.observedFeeVaultAfter
  {
    var fs, gs := SettlementFields(b), SettlementFields(c);
    assert
      && fs[14] == gs[14] && fs[15] == gs[15] && fs[16] == gs[16] && fs[17] == gs[17] && fs[18] == gs[18];
  }

  lemma AmountsLie(data: seq<byte>, b: Settlement)
    requires Reading(data, 1, SettlementFields(b), 1)
    ensures 129 <= |data|
    ensures Holds(data, 1, b.intentDigest) && Holds(data, 33, b.primaryExecutionDigest)
    ensures Holds(data, 65, b.primaryReceiptDigest) && Word(data, 97) == b.amountIn
    ensures Word(data, 105) == b.amountOut && Word(data, 113) == b.protocolFee
    ensures Word(data, 121) == b.totalInputDebit
    ensures Reading(data, 129, SettlementFields(b), 8)
  {
    hide Reading, Word, Half, SettlementFields;
    var plan := SettlementFields(b);
    BlobAt(data, 1, plan, 1, b.intentDigest);
    BlobAt(data, 33, plan, 2, b.primaryExecutionDigest);
    BlobAt(data, 65, plan, 3, b.primaryReceiptDigest);
    WordAt(data, 97, plan, 4, b.amountIn);
    WordAt(data, 105, plan, 5, b.amountOut);
    WordAt(data, 113, plan, 6, b.protocolFee);
    WordAt(data, 121, plan, 7, b.totalInputDebit);
  }

  lemma AccountingLies(data: seq<byte>, b: Settlement)
    requires Reading(data, 129, SettlementFields(b), 8)
    ensures 177 <= |data|
    ensures Word(data, 129) == b.accountedInputBefore && Word(data, 137) == b.accountedOutputBefore
    ensures Word(data, 145) == b.accountedFeeBefore && Word(data, 153) == b.accountedInputAfter
    ensures Word(data, 161) == b.accountedOutputAfter && Word(data, 169) == b.accountedFeeAfter
    ensures Reading(data, 177, SettlementFields(b), 14)
  {
    hide Reading, Word, Half, SettlementFields;
    var plan := SettlementFields(b);
    WordAt(data, 129, plan, 8, b.accountedInputBefore);
    WordAt(data, 137, plan, 9, b.accountedOutputBefore);
    WordAt(data, 145, plan, 10, b.accountedFeeBefore);
    WordAt(data, 153, plan, 11, b.accountedInputAfter);
    WordAt(data, 161, plan, 12, b.accountedOutputAfter);
    WordAt(data, 169, plan, 13, b.accountedFeeAfter);
  }

  lemma ObservationsLie(data: seq<byte>, b: Settlement)
    requires Reading(data, 177, SettlementFields(b), 14)
    ensures 217 <= |data|
    ensures Word(data, 177) == b.observedSourceAfter && Word(data, 185) == b.observedDestinationAfter
    ensures Word(data, 193) == b.observedInputVaultAfter && Word(data, 201) == b.observedOutputVaultAfter
    ensures Word(data, 209) == b.observedFeeVaultAfter
    ensures Reading(data, 217, SettlementFields(b), 19)
  {
    hide Reading, Word, Half, SettlementFields;
    var plan := SettlementFields(b);
    WordAt(data, 177, plan, 14, b.observedSourceAfter);
    WordAt(data, 185, plan, 15, b.observedDestinationAfter);
    WordAt(data, 193, plan, 16, b.observedInputVaultAfter);
    WordAt(data, 201, plan, 17, b.observedOutputVaultAfter);
    WordAt(data, 209, plan, 18, b.observedFeeVaultAfter);
  }

  lemma SettlementOffsets(b: Settlement)
    ensures SettlementLaidOut(SettlementBytes(b), b)
  {
    SettlementFits(b);
    hide Reading, Word, Half, SettlementFields, Serialized, FitsLayout;
    var data, plan := SettlementBytes(b), SettlementFields(b);
    StartAt(plan);
    ByteAt(data, 0, plan, 0, PROBE_WIRE_VERSION);
    AmountsLie(data, b);
    AccountingLies(data, b);
    ObservationsLie(data, b);
  }

  method PutSettlementAmounts(output: array<byte>, at: nat, b: Settlement) returns (cursor: nat)
    requires Wrote(output, at, SettlementFields(b), 0)
    modifies output
    ensures Wrote(output, cursor, SettlementFields(b), 8)
  {
    hide Serialized, Wrote, FitsLayout, SettlementFields;
    ghost var plan := SettlementFields(b);
    cursor := at;
    cursor := PutU8(output, cursor, PROBE_WIRE_VERSION, plan, 0);
    cursor := PutBytes(output, cursor, b.intentDigest, plan, 1);
    cursor := PutBytes(output, cursor, b.primaryExecutionDigest, plan, 2);
    cursor := PutBytes(output, cursor, b.primaryReceiptDigest, plan, 3);
    cursor := PutU64(output, cursor, b.amountIn, plan, 4);
    cursor := PutU64(output, cursor, b.amountOut, plan, 5);
    cursor := PutU64(output, cursor, b.protocolFee, plan, 6);
    cursor := PutU64(output, cursor, b.totalInputDebit, plan, 7);
  }

  method PutSettlementAccounting(output: array<byte>, at: nat, b: Settlement) returns (cursor: nat)
    requires Wrote(output, at, SettlementFields(b), 8)
    modifies output
    ensures Wrote(output, cursor, SettlementFields(b), 14)
  {
    hide Serialized, Wrote, FitsLayout, SettlementFields;
    ghost var plan := SettlementFields(b);
    cursor := at;
    cursor := PutU64(output, cursor, b.accountedInputBefore, plan, 8);
    cursor := PutU64(output, cursor, b.accountedOutputBefore, plan, 9);
    cursor := PutU64(output, cursor, b.accountedFeeBefore, plan, 10);
    cursor := PutU64(output, cursor, b.accountedInputAfter, plan, 11);
    cursor := PutU64(output, cursor, b.accountedOutputAfter, plan, 12);
    cursor := PutU64(output, cursor, b.accountedFeeAfter, plan, 13);
  }

  method PutSettlementObservations(output: array<byte>, at: nat, b: Settlement) returns (cursor: nat)
    requires Wrote(output, at, SettlementFields(b), 14)
    modifies output
    ensures Wrote(output, cursor, SettlementFields(b), 19)
  {
    hide Serialized, Wrote, FitsLayout, SettlementFields;
    ghost var plan := SettlementFields(b);
    cursor := at;
    cursor := PutU64(output, cursor, b.observedSourceAfter, plan, 14);
    cursor := PutU64(output, cursor, b.observedDestinationAfter, plan, 15);
    cursor := PutU64(output, cursor, b.observedInputVaultAfter, plan, 16);
    cursor := PutU64(output, cursor, b.observedOutputVaultAfter, plan, 17);
    cursor := PutU64(output, cursor, b.observedFeeVaultAfter, plan, 18);
  }

  method EncodeSettlement(b: Settlement) returns (encoded: seq<byte>)
    ensures encoded == SettlementBytes(b) && |encoded| == SETTLEMENT_LEN
    ensures SettlementLaidOut(encoded, b)
  {
    hide Serialized, Wrote, FitsLayout, SettlementFields, SettlementLaidOut;
    SettlementFits(b);
    SettlementOffsets(b);
    ghost var plan := SettlementFields(b);
    var output := NewOutput(SETTLEMENT_LEN, plan);
    var cursor := 0;
    cursor := PutSettlementAmounts(output, cursor, b);
    cursor := PutSettlementAccounting(output, cursor, b);
    cursor := PutSettlementObservations(output, cursor, b);
    encoded := Written(output, cursor, plan);
  }

  /** What decoding a byte string must yield: the first failing check, or the one binding it encodes. */
  ghost predicate SettlementDecodes(data: seq<byte>, decoded: Result<Settlement, CodecError>) {
    if |data| != SETTLEMENT_LEN then decoded == Err(InvalidLength(SETTLEMENT_LEN, |data|))
    else if data[0] != PROBE_WIRE_VERSION then decoded == Err(UnsupportedVersion(data[0]))
    else decoded.Ok? && SettlementBytes(decoded.value) == data
  }

  method DecodeSettlement(data: seq<byte>) returns (decoded: Result<Settlement, CodecError>)
    ensures SettlementDecodes(data, decoded)
    ensures decoded.Ok? ==> SettlementLaidOut(data, decoded.value)
  {
    hide Serialized, Reading, Parsed, LayoutLength, SettlementLaidOut;
    :- Need(|data| == SETTLEMENT_LEN, InvalidLength(SETTLEMENT_LEN, |data|));
    SettlementLayoutLength();
    ghost var plan := Parsed(SettlementLayout(), data);
    StartReading(data, SettlementLayout());
    assert FitsLayout(plan, SettlementLayout());
    var cursor := 0;
    var version := ReadU8(data, cursor, plan, 0);
    cursor := cursor + 1;
    :- Need(version == PROBE_WIRE_VERSION, UnsupportedVersion(version));
    var intentDigest := ReadBytes32(data, cursor, plan, 1);
    cursor := cursor + 32;
    var primaryExecutionDigest := ReadBytes32(data, cursor, plan, 2);
    cursor := cursor + 32;
    var primaryReceiptDigest := ReadBytes32(data, cursor, plan, 3);
    cursor := cursor + 32;
    var amountIn := ReadU64(data, cursor, plan, 4);
    cursor := cursor + 8;
    var amountOut := ReadU64(data, cursor, plan, 5);
    cursor := cursor + 8;
    var protocolFee := ReadU64(data, cursor, plan, 6);
    cursor := cursor + 8;
    var totalInputDebit := ReadU64(data, cursor, plan, 7);
    cursor := cursor + 8;
    var accountedInputBefore := ReadU64(data, cursor, plan, 8);
    cursor := cursor + 8;
    var accountedOutputBefore := ReadU64(data, cursor, plan, 9);
    cursor := cursor + 8;
    var accountedFeeBefore := ReadU64(data, cursor, plan, 10);
    cursor := cursor + 8;
    var accountedInputAfter := ReadU64(data, cursor, plan, 11);
    cursor := cursor + 8;
    var accountedOutputAfter := ReadU64(data, cursor, plan, 12);
    cursor := cursor + 8;
    var accountedFeeAfter := ReadU64(data, cursor, plan, 13);
    cursor := cursor + 8;
    var observedSourceAfter := ReadU64(data, cursor, plan, 14);
    cursor := cursor + 8;
    var observedDestinationAfter := ReadU64(data, cursor, plan, 15);
    cursor := cursor + 8;
    var observedInputVaultAfter := ReadU64(data, cursor, plan, 16);
    cursor := cursor + 8;
    var observedOutputVaultAfter := ReadU64(data, cursor, plan, 17);
    cursor := cursor + 8;
    var observedFeeVaultAfter := ReadU64(data, cursor, plan, 18);
    cursor := cursor + 8;
    var binding := SettlementBinding(
      intentDigest, primaryExecutionDigest, primaryReceiptDigest, amountIn, amountOut, protocolFee,
      totalInputDebit, accountedInputBefore, accountedOutputBefore, accountedFeeBefore, accountedInputAfter,
      accountedOutputAfter, accountedFeeAfter, observedSourceAfter, observedDestinationAfter,
      observedInputVaultAfter, observedOutputVaultAfter, observedFeeVaultAfter);
    assert plan == SettlementFields(binding);
    SettlementOffsets(binding);
    return Ok(binding);
  }

  /**
   * The encoder and the decoder are inverse: a byte string decodes to `c` exactly when `c` is valid and
   * encodes to it.
   */
  lemma SettlementBijection(data: seq<byte>, decoded: Result<Settlement, CodecError>, c: Settlement)
    requires SettlementDecodes(data, decoded)
    ensures SettlementBytes(c) == data <==> decoded == Ok(c)
  {
    SettlementHead(c);
    if SettlementBytes(c) == data {
      if decoded.Ok? {
        SettlementInjective(c, decoded.value);
      }
    }
  }

  lemma SettlementHead(c: Settlement)
    ensures |SettlementBytes(c)| == SETTLEMENT_LEN
    ensures SettlementBytes(c)[0] == PROBE_WIRE_VERSION
  {
    SettlementFits(c);
    var fs := SettlementFields(c);
    assert Serialized(fs) == FieldBytes(fs[0]) + Serialized(fs[1..]);
  }
}
