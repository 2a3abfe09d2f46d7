/**
 * What the protocol hashes: a domain string followed by a canonical encoding. The six kinds of
 * preimage, including the two that are built in a loop over a list, never share a byte string.
 */
module Preimages {
  import opened Base
  import opened Bindings
  import opened Wire
  import opened Layouts
  import opened Codec

  type Descriptor = CapabilityDescriptor<Bytes32>
  type HashInput = Preimage<Bytes32, Bytes32>

  function Ascii(s: string): seq<byte> {
    seq(|s|, i requires 0 <= i < |s| => s[i] as int % 256)
  }

  function DomainPrefix(): seq<byte> {
    Ascii("programmable:routed-callback-auth:")
  }

  function DomainSuffix(p: HashInput): string {
    match p
    case CapabilityPreimage(_, _) => "capability:v0"
    case PayloadPreimage(_) => "payload:v0"
    case IntentPreimage(_) => "intent:v0"
    case ExecutionPreimage(_) => "execution:v0"
    case ReceiptPreimage(_) => "receipt:v0"
    case SettlementPreimage(_) => "settlement:v0"
  }

  function HashDomain(p: HashInput): seq<byte> {
    DomainPrefix() + Ascii(DomainSuffix(p))
  }

  // ---- The two list preimages ----

  function PrivilegeFlags<K>(d: CapabilityDescriptor<K>): byte {
    (if d.isWritable then 1 else 0) + (if d.isSigner then 2 else 0)
  }

  function EntryField(i: nat, d: Descriptor, k: nat): Field {
    match k
    case 0 => Num(2, i)
    case 1 => Blob(d.key)
    case 2 => Blob(d.owner)
    case 3 => Num(1, if d.isExecutable then 1 else 0)
    case _ => Num(1, PrivilegeFlags(d))
  }

  function EntryFields(i: nat, d: Descriptor): seq<Field> {
    [EntryField(i, d, 0), EntryField(i, d, 1), EntryField(i, d, 2), EntryField(i, d, 3), EntryField(i, d, 4)]
  }

  const ENTRY_LEN: nat := 68

  function EntryLayout(): seq<Shape> {
    [NumShape(2), BlobShape(32), BlobShape(32), NumShape(1), NumShape(1)]
  }

  /** The entries of positions `i`, `i + 1`, ... */
  function Entries(i: nat, ds: seq<Descriptor>): seq<byte>
    decreases |ds|
  {
    if ds == [] then [] else Serialized(EntryFields(i, ds[0])) + Entries(i + 1, ds[1..])
  }

  function HeaderFields(engineProgram: Bytes32, count: nat): seq<Field> {
    [Num(1, PROBE_WIRE_VERSION), Blob(engineProgram), Num(2, count)]
  }

  function HeaderLayout(): seq<Shape> {
    [NumShape(1), BlobShape(32), NumShape(2)]
  }

  function PayloadFields(payload: seq<byte>): seq<Field> {
    [Num(1, PROBE_WIRE_VERSION), Num(2, |payload|)]
  }

  /** The encoding that follows the domain string. */
  function Body(p: HashInput): seq<byte> {
    match p
    case CapabilityPreimage(engineProgram, ds) => Serialized(HeaderFields(engineProgram, |ds|)) + Entries(0, ds)
    case PayloadPreimage(payload) => Serialized(PayloadFields(payload)) + payload
    case IntentPreimage(b) => IntentBytes(b)
    case ExecutionPreimage(b) => ExecutionBytes(b)
    case ReceiptPreimage(r) => ReceiptBytes(r)
    case SettlementPreimage(b) => SettlementBytes(b)
  }

  function PreimageBytes(p: HashInput): seq<byte> {
    HashDomain(p) + Body(p)
  }

  /** The preimages the hash functions accept. */
  predicate Hashable(p: HashInput) {
    match p
    case CapabilityPreimage(_, ds) => |ds| <= MAX_CAPABILITY_DESCRIPTORS
    case PayloadPreimage(payload) => |payload| <= MAX_OPAQUE_PAYLOAD_LEN
    case IntentPreimage(b) => KnownTiming(b.timingMode)
    case ExecutionPreimage(b) => ValidateExecutionBinding(b, Zero32()).Ok?
    case ReceiptPreimage(r) => KnownPhase(r.phase)
    case SettlementPreimage(_) => true
  }

  // ---- Every byte of a preimage ----

  /** The hash domain of each kind, in full. */
  function FullDomain(p: HashInput): string {
    "programmable:routed-callback-auth:" +
    match p
    case CapabilityPreimage(_, _) => "capability:v0"
    case PayloadPreimage(_) => "payload:v0"
    case IntentPreimage(_) => "intent:v0"
    case ExecutionPreimage(_) => "execution:v0"
    case ReceiptPreimage(_) => "receipt:v0"
    case SettlementPreimage(_) => "settlement:v0"
  }

  predicate LaidOut(encoding: seq<byte>, p: HashInput) {
    match p
    case CapabilityPreimage(program, ds) => CapabilitiesLaidOut(encoding, program, ds)
    case PayloadPreimage(payload) => PayloadLaidOut(encoding, payload)
    case IntentPreimage(b) => IntentLaidOut(encoding, b)
    case ExecutionPreimage(b) => ExecutionLaidOut(encoding, b)
    case ReceiptPreimage(r) => ReceiptLaidOut(encoding, r)
    case SettlementPreimage(b) => SettlementLaidOut(encoding, b)
  }

  /** The input of a hash, spelled out: its domain's characters, then an encoding of the kind's layout. */
  ghost predicate Spelled(input: seq<byte>, p: HashInput) {
    exists encoding :: Tagged(input, FullDomain(p), encoding) && LaidOut(encoding, p)
  }

  predicate IsAscii(s: string) {
    forall i :: 0 <= i < |s| ==> s[i] as int < 256
  }

  lemma AsciiTagged(domain: string, encoding: seq<byte>)
    requires IsAscii(domain)
    ensures Tagged(Ascii(domain) + encoding, domain, encoding)
  {
  }

  lemma AsciiJoined(a: string, b: string)
    requires IsAscii(a) && IsAscii(b)
    ensures Ascii(a + b) == Ascii(a) + Ascii(b) && IsAscii(a + b)
  {
  }

  lemma DomainJoined(p: HashInput)
    ensures HashDomain(p) == Ascii(FullDomain(p)) && IsAscii(FullDomain(p))
  {
    hide Ascii;
    AsciiJoined("programmable:routed-callback-auth:", DomainSuffix(p));
  }

  lemma EntryOffsets(i: nat, d: Descriptor)
    requires i < 0x1_0000
    ensures EntryLaidOut(Serialized(EntryFields(i, d)), 0, i, d)
  {
    hide Reading, Half, Serialized;
    EntrySerialized(i, d);
    var data, plan := Serialized(EntryFields(i, d)), EntryFields(i, d);
    StartAt(plan);
    HalfAt(data, 0, plan, 0, i);
    BlobAt(data, 2, plan, 1, d.key);
    BlobAt(data, 34, plan, 2, d.owner);
    ByteAt(data, 66, plan, 3, if d.isExecutable then 1 else 0);
    ByteAt(data, 67, plan, 4, PrivilegeFlags(d));
  }

  /** An entry is laid out wherever its 68 bytes are. */
  lemma EntryMoves(data: seq<byte>, at: nat, entry: seq<byte>, from: nat, i: nat, d: Descriptor)
    requires EntryLaidOut(entry, from, i, d)
    requires at + 68 <= |data| && data[at..at + 68] == entry[from..from + 68]
    ensures EntryLaidOut(data, at, i, d)
  {
    var s := data[at..at + 68];
    assert s[0] == data[at] == entry[from] && s[1] == data[at + 1] == entry[from + 1];
    assert s[66] == data[at + 66] == entry[from + 66] && s[67] == data[at + 67] == entry[from + 67];
    SliceOfSlice(data, at, 2, 34);
    SliceOfSlice(data, at, 34, 66);
    SliceOfSlice(entry, from, 2, 34);
    SliceOfSlice(entry, from, 34, 66);
  }

  lemma SliceOfSlice(data: seq<byte>, at: nat, lo: nat, hi: nat)
    requires lo <= hi <= 68 && at + 68 <= |data|
    ensures data[at..at + 68][lo..hi] == data[at + lo..at + hi]
  {
    var whole, part, direct := data[at..at + 68], data[at..at + 68][lo..hi], data[at + lo..at + hi];
    forall k | 0 <= k < hi - lo ensures part[k] == direct[k] {
      assert part[k] == whole[lo + k] == data[at + lo + k];
    }
    assert part == direct;
  }

  /** And so are 68 bytes after a head. */
  lemma EntryBehind(head: seq<byte>, rest: seq<byte>, from: nat, i: nat, d: Descriptor)
    requires EntryLaidOut(rest, from, i, d)
    ensures EntryLaidOut(head + rest, |head| + from, i, d)
  {
    var whole, at := head + rest, |head| + from;
    var moved, entry := whole[at..at + 68], rest[from..from + 68];
    forall k | 0 <= k < 68 ensures moved[k] == entry[k] {
      assert moved[k] == whole[at + k] == rest[from + k];
    }
    assert moved == entry;
    hide EntryLaidOut;
    EntryMoves(whole, at, rest, from, i, d);
  }

  lemma {:induction false} EntriesOffsets(i: nat, ds: seq<Descriptor>)
    requires i + |ds| < 0x1_0000
    ensures |Entries(i, ds)| == 68 * |ds|
    ensures forall k :: 0 <= k < |ds| ==> EntryLaidOut(Entries(i, ds), 68 * k, i + k, ds[k])
    decreases |ds|
  {
    hide EntryLaidOut, Serialized, EntryFields;
    if ds != [] {
      var head, rest := Serialized(EntryFields(i, ds[0])), Entries(i + 1, ds[1..]);
      EntrySerialized(i, ds[0]);
      EntryOffsets(i, ds[0]);
      EntriesOffsets(i + 1, ds[1..]);
      var whole := head + rest;
      EntryMoves(whole, 0, head, 0, i, ds[0]);
      forall k | 1 <= k < |ds| ensures EntryLaidOut(whole, 68 * k, i + k, ds[k]) {
        assert EntryLaidOut(rest, 68 * (k - 1), i + 1 + (k - 1), ds[1..][k - 1]);
        EntryBehind(head, rest, 68 * (k - 1), i + k, ds[k]);
      }
    }
  }

  lemma HeaderOffsets(engineProgram: Bytes32, count: nat)
    requires count < 0x1_0000
    ensures var data := Serialized(HeaderFields(engineProgram, count));
            |data| == 35 && data[0] == 0 && Holds(data, 1, engineProgram) && Half(data, 33) == count
  {
    hide Reading, Half, Serialized;
    HeaderSerialized(engineProgram, count);
    var data, plan := Serialized(HeaderFields(engineProgram, count)), HeaderFields(engineProgram, count);
    StartAt(plan);
    ByteAt(data, 0, plan, 0, PROBE_WIRE_VERSION);
    BlobAt(data, 1, plan, 1, engineProgram);
    HalfAt(data, 33, plan, 2, count);
  }

  lemma CapabilitiesOffsets(engineProgram: Bytes32, ds: seq<Descriptor>)
    requires |ds| <= MAX_CAPABILITY_DESCRIPTORS
    ensures CapabilitiesLaidOut(Body(CapabilityPreimage(engineProgram, ds)), engineProgram, ds)
  {
    hide EntryLaidOut, Serialized, HeaderFields, Entries, Half;
    var head, rest := Serialized(HeaderFields(engineProgram, |ds|)), Entries(0, ds);
    HeaderOffsets(engineProgram, |ds|);
    EntriesOffsets(0, ds);
    var whole := head + rest;
    HeadKept(head, rest, engineProgram, |ds|);
    forall i | 0 <= i < |ds| ensures EntryLaidOut(whole, 35 + 68 * i, i, ds[i]) {
      EntryBehind(head, rest, 68 * i, i, ds[i]);
    }
  }

  lemma HeadKept(head: seq<byte>, rest: seq<byte>, engineProgram: Bytes32, count: nat)
    requires |head| == 35 && head[0] == 0 && Holds(head, 1, engineProgram) && Half(head, 33) == count
    ensures var whole := head + rest;
            whole[0] == 0 && Holds(whole, 1, engineProgram) && Half(whole, 33) == count
  {
    assert (head + rest)[1..33] == head[1..33];
  }

  lemma PayloadOffsets(payload: seq<byte>)
    requires |payload| <= MAX_OPAQUE_PAYLOAD_LEN
    ensures PayloadLaidOut(Body(PayloadPreimage(payload)), payload)
  {
    hide Reading, Half, Serialized;
    PayloadSerialized(payload);
    var data, plan := Serialized(PayloadFields(payload)), PayloadFields(payload);
    StartAt(plan);
    ByteAt(data, 0, plan, 0, PROBE_WIRE_VERSION);
    HalfAt(data, 1, plan, 1, |payload|);
    PayloadKept(data, payload);
  }

  lemma PayloadKept(head: seq<byte>, payload: seq<byte>)
    requires |head| == 3 && head[0] == 0 && Half(head, 1) == |payload|
    ensures PayloadLaidOut(head + payload, payload)
  {
  }

  /** What is hashed, byte by byte, for each of the six kinds. */
  lemma PreimageSpelled(p: HashInput)
    requires Hashable(p)
    ensures Spelled(PreimageBytes(p), p)
  {
    hide Body, Tagged, Ascii, LaidOut, HashDomain, FullDomain;
    DomainJoined(p);
    AsciiTagged(FullDomain(p), Body(p));
    BodyLaidOut(p);
  }

  lemma BodyLaidOut(p: HashInput)
    requires Hashable(p)
    ensures LaidOut(Body(p), p)
  {
    hide CapabilitiesLaidOut, PayloadLaidOut, IntentLaidOut, ExecutionLaidOut, ReceiptLaidOut, SettlementLaidOut,
         Serialized, Entries, IntentBytes, ExecutionBytes, ReceiptBytes, SettlementBytes;
    match p
    case CapabilityPreimage(program, ds) => CapabilitiesOffsets(program, ds);
    case PayloadPreimage(payload) => PayloadOffsets(payload);
    case IntentPreimage(b) => IntentOffsets(b);
    case ExecutionPreimage(b) => ExecutionOffsets(b);
    case ReceiptPreimage(r) => ReceiptOffsets(r);
    case SettlementPreimage(b) => SettlementOffsets(b);
  }

  // ---- The loop-built hashes ----

  method ComputeCapabilityHash(sha: Hasher, engineProgram: Bytes32, descriptors: seq<Descriptor>)
    returns (hash: Result<Bytes32, CodecError>)
    ensures hash == if Hashable(CapabilityPreimage(engineProgram, descriptors))
                    then Ok(sha(PreimageBytes(CapabilityPreimage(engineProgram, descriptors))))
                    else Err(TooManyCapabilityDescriptors(|descriptors|))
    ensures hash.Ok? ==>
              exists input :: Spelled(input, CapabilityPreimage(engineProgram, descriptors)) && hash.value == sha(input)
  {
    hide Serialized, HeaderFields, EntryFields, Spelled;
    :- Need(|descriptors| <= MAX_CAPABILITY_DESCRIPTORS, TooManyCapabilityDescriptors(|descriptors|));
    var encoded: seq<byte> := [PROBE_WIRE_VERSION];
    encoded := encoded + engineProgram;
    encoded := encoded + ToLe(|descriptors|, 2);
    HeaderSerialized(engineProgram, |descriptors|);
    assert encoded == Serialized(HeaderFields(engineProgram, |descriptors|));
    for index := 0 to |descriptors|
      invariant encoded + Entries(index, descriptors[index..])
             == Serialized(HeaderFields(engineProgram, |descriptors|)) + Entries(0, descriptors)
    {
      assert descriptors[index..][1..] == descriptors[index + 1..];
      ghost var before := encoded;
      encoded := PushEntry(encoded, index, descriptors[index]);
      Regroup(before, Serialized(EntryFields(index, descriptors[index])), Entries(index + 1, descriptors[index + 1..]));
    }
    assert descriptors[|descriptors|..] == [];
    assert encoded == Body(CapabilityPreimage(engineProgram, descriptors));
    PreimageSpelled(CapabilityPreimage(engineProgram, descriptors));
    return Ok(sha(HashDomain(CapabilityPreimage(engineProgram, descriptors)) + encoded));
  }

  lemma Regroup(a: seq<byte>, b: seq<byte>, c: seq<byte>)
    ensures a + (b + c) == (a + b) + c
  {
  }

  /** The pushes of one loop iteration. */
  method PushEntry(encoded: seq<byte>, index: nat, descriptor: Descriptor) returns (extended: seq<byte>)
    ensures extended == encoded + Serialized(EntryFields(index, descriptor))
  {
    hide Serialized, EntryFields;
    EntrySerialized(index, descriptor);
    extended := encoded + ToLe(index, 2);
    extended := extended + descriptor.key;
    extended := extended + descriptor.owner;
    extended := extended + [if descriptor.isExecutable then 1 else 0];
    extended := extended + [PrivilegeFlags(descriptor)];
  }

  method ComputePayloadHash(sha: Hasher, payload: seq<byte>) returns (hash: Result<Bytes32, CodecError>)
    ensures hash == if Hashable(PayloadPreimage(payload)) then Ok(sha(PreimageBytes(PayloadPreimage(payload))))
                    else Err(PayloadTooLong(|payload|))
    ensures hash.Ok? ==> exists input :: Spelled(input, PayloadPreimage(payload)) && hash.value == sha(input)
  {
    hide Spelled;
    if |payload| > MAX_OPAQUE_PAYLOAD_LEN {
      return Err(PayloadTooLong(|payload|));
    }
    var encoded: seq<byte> := [PROBE_WIRE_VERSION];
    encoded := encoded + ToLe(|payload|, 2);
    encoded := encoded + payload;
    PayloadSerialized(payload);
    PreimageSpelled(PayloadPreimage(payload));
    return Ok(sha(HashDomain(PayloadPreimage(payload)) + encoded));
  }

  lemma OneByte(b: byte)
    ensures ToLe(b, 1) == [b]
  {
    assert ToLe(b / 256, 0) == [];
  }

  lemma NothingSerialized()
    ensures Serialized([]) == []
  {
  }

  lemma HeaderSerialized(engineProgram: Bytes32, count: nat)
    ensures Serialized(HeaderFields(engineProgram, count)) == [PROBE_WIRE_VERSION] + engineProgram + ToLe(count, 2)
    ensures |Serialized(HeaderFields(engineProgram, count))| == 35
  {
    hide ToLe, Serialized;
    OneByte(PROBE_WIRE_VERSION);
    NothingSerialized();
    var fs := HeaderFields(engineProgram, count);
    SerializedFrom(fs, 0);
    SerializedFrom(fs, 1);
    SerializedFrom(fs, 2);
    assert fs[0..] == fs && fs[3..] == [];
  }

  lemma EntrySerialized(i: nat, d: Descriptor)
    ensures Serialized(EntryFields(i, d))
         == ToLe(i, 2) + d.key + d.owner + [if d.isExecutable then 1 else 0] + [PrivilegeFlags(d)]
    ensures |Serialized(EntryFields(i, d))| == ENTRY_LEN
  {
    hide ToLe, Serialized, PrivilegeFlags;
    OneByte(if d.isExecutable then 1 else 0);
    OneByte(PrivilegeFlags(d));
    NothingSerialized();
    var fs := EntryFields(i, d);
    SerializedFrom(fs, 0);
    SerializedFrom(fs, 1);
    SerializedFrom(fs, 2);
    SerializedFrom(fs, 3);
    SerializedFrom(fs, 4);
    assert fs[0..] == fs && fs[5..] == [];
  }

  lemma PayloadSerialized(payload: seq<byte>)
    ensures Serialized(PayloadFields(payload)) == [PROBE_WIRE_VERSION] + ToLe(|payload|, 2)
  {
    hide ToLe, Serialized;
    OneByte(PROBE_WIRE_VERSION);
    NothingSerialized();
    var fs := PayloadFields(payload);
    SerializedFrom(fs, 0);
    SerializedFrom(fs, 1);
    assert fs[0..] == fs && fs[2..] == [];
  }

  // ---- Injectivity ----

  lemma EntryInjective(i: nat, d: Descriptor, e: Descriptor)
    requires i < 0x1_0000 && Serialized(EntryFields(i, d)) == Serialized(EntryFields(i, e))
    ensures d == e
  {
    NumberWidths();
    var fs, gs := EntryFields(i, d), EntryFields(i, e);
    SerializedInjective(fs, gs, EntryLayout());
    assert fs[1] == gs[1] && fs[2] == gs[2] && fs[3] == gs[3] && fs[4] == gs[4];
  }

  lemma {:induction false} EntriesInjective(i: nat, ds: seq<Descriptor>, es: seq<Descriptor>)
    requires |ds| == |es| && i + |ds| <= 0x1_0000 && Entries(i, ds) == Entries(i, es)
    ensures ds == es
    decreases |ds|
  {
    if ds != [] {
      EntrySerialized(i, ds[0]);
      EntrySerialized(i, es[0]);
      assert Serialized(EntryFields(i, ds[0])) == Entries(i, ds)[..ENTRY_LEN];
      assert Serialized(EntryFields(i, es[0])) == Entries(i, es)[..ENTRY_LEN];
      assert Entries(i + 1, ds[1..]) == Entries(i, ds)[ENTRY_LEN..];
      assert Entries(i + 1, es[1..]) == Entries(i, es)[ENTRY_LEN..];
      EntryInjective(i, ds[0], es[0]);
      EntriesInjective(i + 1, ds[1..], es[1..]);
    }
  }

  lemma CapabilityInjective(p: HashInput, q: HashInput)
    requires p.CapabilityPreimage? && q.CapabilityPreimage? && Hashable(p) && Hashable(q) && Body(p) == Body(q)
    ensures p == q
  {
    NumberWidths();
    var fs, gs := HeaderFields(p.engineProgram, |p.descriptors|), HeaderFields(q.engineProgram, |q.descriptors|);
    HeaderSerialized(p.engineProgram, |p.descriptors|);
    HeaderSerialized(q.engineProgram, |q.descriptors|);
    assert Serialized(fs) == Body(p)[..35] && Serialized(gs) == Body(q)[..35];
    SerializedInjective(fs, gs, HeaderLayout());
    assert fs[1] == gs[1] && fs[2] == gs[2];
    assert Entries(0, p.descriptors) == Body(p)[35..];
    assert Entries(0, q.descriptors) == Body(q)[35..];
    EntriesInjective(0, p.descriptors, q.descriptors);
  }

  lemma PayloadInjective(p: HashInput, q: HashInput)
    requires p.PayloadPreimage? && q.PayloadPreimage? && Body(p) == Body(q)
    ensures p == q
  {
    PayloadSerialized(p.payload);
    PayloadSerialized(q.payload);
    assert p.payload == Body(p)[3..] && q.payload == Body(q)[3..];
  }

  /** The six domains are told apart by the first character after their common prefix. */
  lemma DomainsDistinct(p: HashInput, q: HashInput)
    requires PreimageBytes(p) == PreimageBytes(q)
    ensures DomainSuffix(p) == DomainSuffix(q)
  {
    hide DomainPrefix, Body;
    SuffixAt(p);
    SuffixAt(q);
  }

  lemma SuffixAt(p: HashInput)
    ensures |PreimageBytes(p)| > |DomainPrefix()|
    ensures PreimageBytes(p)[|DomainPrefix()|] == DomainSuffix(p)[0] as int
  {
    hide DomainPrefix, Body;
    var suffix := Ascii(DomainSuffix(p));
    assert PreimageBytes(p) == DomainPrefix() + (suffix + Body(p));
    assert suffix[0] == DomainSuffix(p)[0] as int % 256;
  }

  /** No two hashable preimages, of the same kind or of different kinds, share a byte string. */
  lemma PreimagesInjective(p: HashInput, q: HashInput)
    requires Hashable(p) && Hashable(q) && PreimageBytes(p) == PreimageBytes(q)
    ensures p == q
  {
    DomainsDistinct(p, q);
    SameKind(p, q);
    var n := |HashDomain(p)|;
    assert Body(p) == PreimageBytes(p)[n..] && Body(q) == PreimageBytes(q)[n..];
    match p
    case CapabilityPreimage(_, _) => CapabilityInjective(p, q);
    case PayloadPreimage(_) => PayloadInjective(p, q);
    case IntentPreimage(b) => IntentInjective(b, q.intent);
    case ExecutionPreimage(b) => ExecutionInjective(b, q.execution);
    case ReceiptPreimage(r) => ReceiptInjective(r, q.receipt);
    case SettlementPreimage(b) => SettlementInjective(b, q.settlement);
  }

  lemma SameKind(p: HashInput, q: HashInput)
    requires DomainSuffix(p) == DomainSuffix(q)
    ensures p.CapabilityPreimage? == q.CapabilityPreimage? && p.PayloadPreimage? == q.PayloadPreimage?
    ensures p.IntentPreimage? == q.IntentPreimage? && p.ExecutionPreimage? == q.ExecutionPreimage?
    ensures p.ReceiptPreimage? == q.ReceiptPreimage? && p.SettlementPreimage? == q.SettlementPreimage?
  {
    assert DomainSuffix(p)[0] == DomainSuffix(q)[0];
  }

  /** A SHA-256 collision between two encodings. */
  ghost predicate Collision(sha: Hasher, a: seq<byte>, b: seq<byte>) {
    a != b && sha(a) == sha(b)
  }

  /** Two commitments with one digest are the same commitment, or exhibit a hash collision. */
  lemma EqualDigestsOrCollision(sha: Hasher, p: HashInput, q: HashInput)
    requires Hashable(p) && Hashable(q) && sha(PreimageBytes(p)) == sha(PreimageBytes(q))
    ensures p == q <==> !Collision(sha, PreimageBytes(p), PreimageBytes(q))
  {
    if PreimageBytes(p) == PreimageBytes(q) {
      PreimagesInjective(p, q);
    }
  }
}
