/**
 * Fixed-width wire fields: the little-endian numbers and byte strings a binding is made of, the
 * buffer writer and reader that move a cursor over them, and the bijection between field lists of
 * one layout and byte strings of its length.
 */
module Wire {
  import opened Base

  type Bytes32 = s: seq<byte> | |s| == 32 witness seq(32, _ => 0)

  /** SHA-256, as a parameter: nothing below needs more of it than its output width. */
  type Hasher = seq<byte> -> Bytes32

  function Zero32(): Bytes32 {
    seq(32, _ => 0)
  }

  // ---- Little-endian numbers ----

  function Pow256(width: nat): (p: nat)
    ensures p > 0
  {
    if width == 0 then 1 else 256 * Pow256(width - 1)
  }

  function ToLe(n: nat, width: nat): (s: seq<byte>)
    ensures |s| == width
  {
    if width == 0 then [] else [n % 256] + ToLe(n / 256, width - 1)
  }

  function FromLe(s: seq<byte>): (n: nat)
    ensures n < Pow256(|s|)
  {
    if s == [] then 0 else s[0] + 256 * FromLe(s[1..])
  }

  lemma {:induction false} FromToLe(n: nat, width: nat)
    requires n < Pow256(width)
    ensures FromLe(ToLe(n, width)) == n
  {
    if width > 0 {
      FromToLe(n / 256, width - 1);
      assert ToLe(n, width)[1..] == ToLe(n / 256, width - 1);
    }
  }

  lemma {:induction false} ToFromLe(s: seq<byte>)
    ensures ToLe(FromLe(s), |s|) == s
  {
    if s != [] {
      var n := FromLe(s);
      assert n % 256 == s[0] && n / 256 == FromLe(s[1..]);
      ToFromLe(s[1..]);
      assert s == [s[0]] + s[1..];
    }
  }

  /** The little-endian number in two bytes... */
  function Half(data: seq<byte>, at: nat): nat
    requires at + 2 <= |data|
  {
    var low: nat, high: nat := data[at], data[at + 1];
    low + 0x100 * high
  }

  /** ...and in eight. */
  function Word(data: seq<byte>, at: nat): nat
    requires at + 8 <= |data|
  {
    Half(data, at) + 0x1_0000 * Half(data, at + 2) + 0x1_0000_0000 * Half(data, at + 4)
    + 0x1_0000_0000_0000 * Half(data, at + 6)
  }

  lemma FromLeHalf(s: seq<byte>, i: nat)
    requires i + 2 <= |s|
    ensures FromLe(s[i..]) == Half(s, i) + 0x1_0000 * FromLe(s[i + 2..])
  {
    assert s[i..][1..] == s[i + 1..] && s[i + 1..][1..] == s[i + 2..];
  }

  lemma HalfValue(s: seq<byte>)
    requires |s| == 2
    ensures FromLe(s) == Half(s, 0)
  {
    FromLeHalf(s, 0);
    assert s[0..] == s && s[2..] == [];
  }

  lemma WordValue(s: seq<byte>)
    requires |s| == 8
    ensures FromLe(s) == Word(s, 0)
  {
    hide FromLe, Half;
    FromLeHalf(s, 0);
    FromLeHalf(s, 2);
    FromLeHalf(s, 4);
    FromLeHalf(s, 6);
    NoBytes();
    assert s[0..] == s && s[8..] == [];
  }

  lemma NoBytes()
    ensures FromLe([]) == 0
  {
  }

  // ---- Fields and layouts ----

  datatype Field = Num(width: nat, value: nat) | Blob(bytes: seq<byte>)

  datatype Shape = NumShape(width: nat) | BlobShape(length: nat)

  predicate Fits(f: Field, w: Shape) {
    match (f, w)
    case (Num(width, value), NumShape(width')) => width == width' && value < Pow256(width)
    case (Blob(bytes), BlobShape(length)) => |bytes| == length
    case (_, _) => false
  }

  predicate FitsLayout(fs: seq<Field>, layout: seq<Shape>) {
    |fs| == |layout| && forall i :: 0 <= i < |fs| ==> Fits(fs[i], layout[i])
  }

  function FieldBytes(f: Field): seq<byte> {
    match f
    case Num(width, value) => ToLe(value, width)
    case Blob(bytes) => bytes
  }

  function Length(w: Shape): nat {
    match w
    case NumShape(width) => width
    case BlobShape(length) => length
  }

  function LayoutLength(layout: seq<Shape>): nat {
    if layout == [] then 0 else Length(layout[0]) + LayoutLength(layout[1..])
  }

  /** The encoding of a field list. */
  function Serialized(fs: seq<Field>): seq<byte> {
    if fs == [] then [] else FieldBytes(fs[0]) + Serialized(fs[1..])
  }

  /** The field list a byte string of the layout's length holds. */
  function Parsed(layout: seq<Shape>, data: seq<byte>): (fs: seq<Field>)
    requires |data| == LayoutLength(layout)
    ensures FitsLayout(fs, layout)
  {
    if layout == [] then [] else
    var n := Length(layout[0]);
    var head := match layout[0] case NumShape(_) => Num(n, FromLe(data[..n])) case BlobShape(_) => Blob(data[..n]);
    [head] + Parsed(layout[1..], data[n..])
  }

  lemma {:induction false} SerializedLength(fs: seq<Field>, layout: seq<Shape>)
    requires FitsLayout(fs, layout)
    ensures |Serialized(fs)| == LayoutLength(layout)
  {
    if fs != [] {
      assert Fits(fs[0], layout[0]);
      assert FitsLayout(fs[1..], layout[1..]);
      SerializedLength(fs[1..], layout[1..]);
    }
  }

  /** Parsing undoes serializing... */
  lemma {:induction false} ParsedSerialized(fs: seq<Field>, layout: seq<Shape>)
    requires FitsLayout(fs, layout)
    ensures |Serialized(fs)| == LayoutLength(layout)
    ensures Parsed(layout, Serialized(fs)) == fs
  {
    hide FromLe, ToLe, Pow256;
    SerializedLength(fs, layout);
    if fs != [] {
      assert Fits(fs[0], layout[0]);
      var n := Length(layout[0]);
      assert Serialized(fs)[..n] == FieldBytes(fs[0]);
      assert Serialized(fs)[n..] == Serialized(fs[1..]);
      assert FitsLayout(fs[1..], layout[1..]);
      ParsedSerialized(fs[1..], layout[1..]);
      if fs[0].Num? {
        FromToLe(fs[0].value, fs[0].width);
      }
    }
  }

  /** ...and serializing undoes parsing. */
  lemma {:induction false} SerializedParsed(layout: seq<Shape>, data: seq<byte>)
    requires |data| == LayoutLength(layout)
    ensures Serialized(Parsed(layout, data)) == data
  {
    if layout != [] {
      var n := Length(layout[0]);
      SerializedParsed(layout[1..], data[n..]);
      ToFromLe(data[..n]);
      assert data == data[..n] + data[n..];
    }
  }

  /** One layout's encodings are prefix-free as well as distinct. */
  lemma SerializedInjective(fs: seq<Field>, gs: seq<Field>, layout: seq<Shape>)
    requires FitsLayout(fs, layout) && FitsLayout(gs, layout)
    requires Serialized(fs) == Serialized(gs)
    ensures fs == gs
  {
    ParsedSerialized(fs, layout);
    ParsedSerialized(gs, layout);
  }

  lemma SerializedFrom(fs: seq<Field>, i: nat)
    requires i < |fs|
    ensures Serialized(fs[i..]) == FieldBytes(fs[i]) + Serialized(fs[i + 1..])
  {
    assert fs[i..][1..] == fs[i + 1..];
  }

  // ---- The cursors ----

  /**
   * The output buffer holds the first `next` fields of `plan` up to the cursor. `plan` is the field
   * list the caller means to write, and has exactly the buffer's length.
   */
  ghost predicate Wrote(output: array<byte>, cursor: nat, plan: seq<Field>, next: nat)
    reads output
  {
    && next <= |plan|
    && cursor <= output.Length == |Serialized(plan)|
    && output[..cursor] + Serialized(plan[next..]) == Serialized(plan)
  }

  method NewOutput(length: nat, ghost plan: seq<Field>) returns (output: array<byte>)
    requires |Serialized(plan)| == length
    ensures fresh(output) && Wrote(output, 0, plan, 0)
  {
    output := new byte[length](_ => 0);
    assert plan[0..] == plan;
  }

  /** `put_bytes` of the next planned field. */
  method Put(output: array<byte>, cursor: nat, value: seq<byte>, ghost plan: seq<Field>, ghost next: nat)
    returns (end: nat)
    requires Wrote(output, cursor, plan, next) && next < |plan| && value == FieldBytes(plan[next])
    modifies output
    ensures Wrote(output, end, plan, next + 1)
  {
    SerializedFrom(plan, next);
    end := cursor + |value|;
    CopyInto(output, cursor, value);
    assert output[..end] == old(output[..cursor]) + value;
  }

  /** `copy_from_slice`. */
  method CopyInto(output: array<byte>, at: nat, value: seq<byte>)
    requires at + |value| <= output.Length
    modifies output
    ensures output[..] == old(output[..at]) + value + old(output[at + |value|..])
  {
    for i := 0 to |value|
      invariant output[..at] == old(output[..at])
      invariant output[at..at + i] == value[..i]
      invariant output[at + |value|..] == old(output[at + |value|..])
    {
      output[at + i] := value[i];
    }
  }

  method PutBytes(output: array<byte>, cursor: nat, value: seq<byte>, ghost plan: seq<Field>, ghost next: nat)
    returns (end: nat)
    requires Wrote(output, cursor, plan, next) && next < |plan| && plan[next] == Blob(value)
    modifies output
    ensures Wrote(output, end, plan, next + 1)
  {
    end := Put(output, cursor, value, plan, next);
  }

  method PutU8(output: array<byte>, cursor: nat, value: byte, ghost plan: seq<Field>, ghost next: nat)
    returns (end: nat)
    requires Wrote(output, cursor, plan, next) && next < |plan| && plan[next] == Num(1, value)
    modifies output
    ensures Wrote(output, end, plan, next + 1)
  {
    end := Put(output, cursor, ToLe(value, 1), plan, next);
  }

  method PutU16(output: array<byte>, cursor: nat, value: u16, ghost plan: seq<Field>, ghost next: nat)
    returns (end: nat)
    requires Wrote(output, cursor, plan, next) && next < |plan| && plan[next] == Num(2, value)
    modifies output
    ensures Wrote(output, end, plan, next + 1)
  {
    end := Put(output, cursor, ToLe(value, 2), plan, next);
  }

  method PutU64(output: array<byte>, cursor: nat, value: u64, ghost plan: seq<Field>, ghost next: nat)
    returns (end: nat)
    requires Wrote(output, cursor, plan, next) && next < |plan| && plan[next] == Num(8, value)
    modifies output
    ensures Wrote(output, end, plan, next + 1)
  {
    end := Put(output, cursor, ToLe(value, 8), plan, next);
  }

  /** The filled buffer, as a value. */
  method Written(output: array<byte>, cursor: nat, ghost plan: seq<Field>) returns (bytes: seq<byte>)
    requires Wrote(output, cursor, plan, |plan|)
    ensures bytes == Serialized(plan)
  {
    assert plan[|plan|..] == [];
    assert output[..cursor] == Serialized(plan);
    bytes := output[..];
  }

  /**
   * From the cursor on, `data` holds the fields of `plan` from `next` on. `plan` is what the whole
   * input parses to in the layout the caller means to read.
   */
  ghost predicate Reading(data: seq<byte>, cursor: nat, plan: seq<Field>, next: nat) {
    && next <= |plan|
    && cursor <= |data|
    && data[cursor..] == Serialized(plan[next..])
  }

  lemma StartReading(data: seq<byte>, layout: seq<Shape>)
    requires |data| == LayoutLength(layout)
    ensures Reading(data, 0, Parsed(layout, data), 0)
    ensures Serialized(Parsed(layout, data)) == data
  {
    SerializedParsed(layout, data);
    assert Parsed(layout, data)[0..] == Parsed(layout, data);
  }

  lemma SplitAt(data: seq<byte>, cursor: nat, head: seq<byte>, rest: seq<byte>)
    requires cursor <= |data| && data[cursor..] == head + rest
    ensures cursor + |head| <= |data| && data[cursor..cursor + |head|] == head && data[cursor + |head|..] == rest
  {
    assert data[cursor..][..|head|] == head;
    assert data[cursor..][|head|..] == rest;
  }

  /** Reading the next planned field leaves the cursor at the field after it. */
  lemma NextField(data: seq<byte>, cursor: nat, plan: seq<Field>, next: nat, bytes: seq<byte>)
    requires Reading(data, cursor, plan, next) && next < |plan| && bytes == FieldBytes(plan[next])
    ensures cursor + |bytes| <= |data| && data[cursor..cursor + |bytes|] == bytes
    ensures Reading(data, cursor + |bytes|, plan, next + 1)
  {
    hide FieldBytes;
    SerializedFrom(plan, next);
    SplitAt(data, cursor, bytes, Serialized(plan[next + 1..]));
  }

  // ---- Where the planned fields lie ----

  lemma BlobAt(data: seq<byte>, at: nat, plan: seq<Field>, next: nat, blob: seq<byte>)
    requires Reading(data, at, plan, next) && next < |plan| && plan[next] == Blob(blob)
    ensures at + |blob| <= |data| && data[at..at + |blob|] == blob
    ensures Reading(data, at + |blob|, plan, next + 1)
  {
    NextField(data, at, plan, next, blob);
  }

  lemma ByteAt(data: seq<byte>, at: nat, plan: seq<Field>, next: nat, value: byte)
    requires Reading(data, at, plan, next) && next < |plan| && plan[next] == Num(1, value)
    ensures at < |data| && data[at] == value
    ensures Reading(data, at + 1, plan, next + 1)
  {
    hide Reading;
    NextField(data, at, plan, next, ToLe(value, 1));
    assert data[at..at + 1][0] == ToLe(value, 1)[0];
  }

  lemma HalfAt(data: seq<byte>, at: nat, plan: seq<Field>, next: nat, value: u16)
    requires Reading(data, at, plan, next) && next < |plan| && plan[next] == Num(2, value)
    ensures at + 2 <= |data| && Half(data, at) == value
    ensures Reading(data, at + 2, plan, next + 1)
  {
    hide Reading;
    NextField(data, at, plan, next, ToLe(value, 2));
    var s := data[at..at + 2];
    FromToLe(value, 2);
    HalfValue(s);
    assert s[0] == data[at] && s[1] == data[at + 1];
  }

  lemma WordAt(data: seq<byte>, at: nat, plan: seq<Field>, next: nat, value: u64)
    requires Reading(data, at, plan, next) && next < |plan| && plan[next] == Num(8, value)
    ensures at + 8 <= |data| && Word(data, at) == value
    ensures Reading(data, at + 8, plan, next + 1)
  {
    hide Reading, ToLe, FromLe;
    NextField(data, at, plan, next, ToLe(value, 8));
    var s := data[at..at + 8];
    assert Pow256(4) == 0x1_0000_0000;
    FromToLe(value, 8);
    WordValue(s);
    assert s[0] == data[at] && s[1] == data[at + 1] && s[2] == data[at + 2] && s[3] == data[at + 3];
    assert s[4] == data[at + 4] && s[5] == data[at + 5] && s[6] == data[at + 6] && s[7] == data[at + 7];
  }

  /** `read_array_*` at the cursor. */
  function ReadArray(data: seq<byte>, cursor: nat, length: nat, ghost plan: seq<Field>,
                     ghost next: nat): (value: seq<byte>)
    requires Reading(data, cursor, plan, next) && next < |plan| && Fits(plan[next], BlobShape(length))
    ensures plan[next] == Blob(value) && |value| == length
    ensures Reading(data, cursor + length, plan, next + 1)
    ensures cursor + length <= |data| && value == data[cursor..cursor + length]
  {
    NextField(data, cursor, plan, next, FieldBytes(plan[next]));
    data[cursor..cursor + length]
  }

  function ReadNumber(data: seq<byte>, cursor: nat, width: nat, ghost plan: seq<Field>, ghost next: nat): (value: nat)
    requires Reading(data, cursor, plan, next) && next < |plan| && Fits(plan[next], NumShape(width))
    ensures plan[next] == Num(width, value) && value < Pow256(width)
    ensures Reading(data, cursor + width, plan, next + 1)
    ensures cursor + width <= |data| && value == FromLe(data[cursor..cursor + width])
  {
    NextField(data, cursor, plan, next, FieldBytes(plan[next]));
    FromToLe(plan[next].value, width);
    FromLe(data[cursor..cursor + width])
  }

  function ReadU8(data: seq<byte>, cursor: nat, ghost plan: seq<Field>, ghost next: nat): (value: byte)
    requires Reading(data, cursor, plan, next) && next < |plan| && Fits(plan[next], NumShape(1))
    ensures plan[next] == Num(1, value) && Reading(data, cursor + 1, plan, next + 1)
    ensures cursor < |data| && value == data[cursor]
  {
    ReadNumber(data, cursor, 1, plan, next)
  }

  function ReadU16(data: seq<byte>, cursor: nat, ghost plan: seq<Field>, ghost next: nat): (value: u16)
    requires Reading(data, cursor, plan, next) && next < |plan| && Fits(plan[next], NumShape(2))
    ensures plan[next] == Num(2, value) && Reading(data, cursor + 2, plan, next + 1)
  {
    ReadNumber(data, cursor, 2, plan, next)
  }

  function ReadU64(data: seq<byte>, cursor: nat, ghost plan: seq<Field>, ghost next: nat): (value: u64)
    requires Reading(data, cursor, plan, next) && next < |plan| && Fits(plan[next], NumShape(8))
    ensures plan[next] == Num(8, value) && Reading(data, cursor + 8, plan, next + 1)
  {
    assert Pow256(4) == 0x1_0000_0000;
    ReadNumber(data, cursor, 8, plan, next)
  }

  function ReadBytes32(data: seq<byte>, cursor: nat, ghost plan: seq<Field>, ghost next: nat): (value: Bytes32)
    requires Reading(data, cursor, plan, next) && next < |plan| && Fits(plan[next], BlobShape(32))
    ensures plan[next] == Blob(value) && Reading(data, cursor + 32, plan, next + 1)
  {
    ReadArray(data, cursor, 32, plan, next)
  }
}
