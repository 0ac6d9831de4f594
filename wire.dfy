/**
 * Protocol Buffers wire primitives used by the pprof profile encoder.
 *
 * The encoder writes every entity as a sequence of tagged fields. A field is
 * modelled abstractly as a `Field` event (a field number with either a varint
 * value or a length-delimited payload); `Serialize` gives the bytes of a field
 * list as the Protocol Buffers encoding guide defines them ("Base 128 Varints",
 * "Message Structure": tag = field number << 3 | wire type, "Packed Repeated
 * Fields"), and `ParseFields` reads them back.
 *
 * Each primitive the encoder calls (encodeInt64Opt, encodeUint64Opt,
 * encodeBoolOpt, encodeInt64, encodeInt64s, encodeUint64s, encodeMessage,
 * encodeRepeatedMessage, encodeStrings) is given twice: as a function saying
 * which fields it emits, and as a method appending its bytes to a buffer.
 */
module Wire {

  datatype Option<T> = None | Some(value: T)

  type byte = x: int | 0 <= x < 0x100
  type Bytes = seq<byte>

  const TWO_63: int := 0x8000_0000_0000_0000
  const TWO_64: int := 0x1_0000_0000_0000_0000

  type int64 = x: int | -0x8000_0000_0000_0000 <= x < 0x8000_0000_0000_0000
  type uint64 = x: int | 0 <= x < 0x1_0000_0000_0000_0000

  /** The C++ conversion from int64_t to uint64_t: the same 64 bits read as unsigned. */
  function ToUint64(x: int64): (r: uint64)
    ensures r % TWO_64 == x % TWO_64
  {
    if x < 0 then x + TWO_64 else x
  }

  /** The conversion from uint64_t back to int64_t (two's complement). */
  function ToInt64(u: uint64): (r: int64)
    ensures ToUint64(r) == u
  {
    if u < TWO_63 then u else u - TWO_64
  }

  function Unsigned(vs: seq<int64>): (r: seq<uint64>)
    ensures |r| == |vs|
  {
    seq(|vs|, i requires 0 <= i < |vs| => ToUint64(vs[i]))
  }

  function Signed(us: seq<uint64>): (r: seq<int64>)
    ensures |r| == |us|
    ensures forall i :: 0 <= i < |us| ==> ToUint64(r[i]) == us[i]
  {
    seq(|us|, i requires 0 <= i < |us| => ToInt64(us[i]))
  }

  /** Reading back the unsigned bit patterns of signed values gives the values. */
  lemma SignedUnsigned(vs: seq<int64>)
    ensures Signed(Unsigned(vs)) == vs
  {
    assert forall i :: 0 <= i < |vs| ==> ToInt64(ToUint64(vs[i])) == vs[i];
  }

  // ---------------------------------------------------------------------------
  // Base 128 varints

  /** Seven bits per byte, least significant group first; every byte but the last has its high bit set. */
  function VarintBytes(x: nat): (r: Bytes)
    decreases x
  {
    if x < 0x80 then [x]
    else
      var low, high := x % 0x80, x / 0x80;
      assert low < 0x80 && high < x by { DivMod128(x); }
      [low + 0x80] + VarintBytes(high)
  }

  /** A varint is never empty, and exactly its last byte has the high bit clear. */
  lemma {:induction false} VarintShape(x: nat)
    ensures var r := VarintBytes(x);
            |r| >= 1 && r[|r| - 1] < 0x80 && forall i :: 0 <= i < |r| - 1 ==> r[i] >= 0x80
    decreases x
  {
    if x >= 0x80 {
      DivMod128(x);
      VarintShape(x / 0x80);
      var r := VarintBytes(x);
      assert r == [x % 0x80 + 0x80] + VarintBytes(x / 0x80);
    }
  }

  lemma DivMod128(x: nat)
    requires x >= 0x80
    ensures x % 0x80 < 0x80 && 1 <= x / 0x80 < x
  {
  }

  /** Reads one varint from the front of `bs`, giving its value and the bytes after it. */
  function ParseVarint(bs: Bytes): (r: Option<(nat, Bytes)>)
    ensures r.Some? ==> |r.value.1| < |bs| && r.value.1 == bs[|bs| - |r.value.1|..]
  {
    if |bs| == 0 then None
    else if bs[0] < 0x80 then Some((bs[0], bs[1..]))
    else
      match ParseVarint(bs[1..])
      case None => None
      case Some((v, rest)) => Some((bs[0] - 0x80 + 0x80 * v, rest))
  }

  lemma {:induction false} VarintRoundTrip(x: nat, rest: Bytes)
    ensures ParseVarint(VarintBytes(x) + rest) == Some((x, rest))
    decreases x
  {
    var bs := VarintBytes(x) + rest;
    if x < 0x80 {
      assert bs[1..] == rest;
    } else {
      assert bs[1..] == VarintBytes(x / 0x80) + rest;
      VarintRoundTrip(x / 0x80, rest);
    }
  }

  function Pow128(k: nat): (r: nat)
  {
    if k == 0 then 1 else 0x80 * Pow128(k - 1)
  }

  lemma {:induction false} VarintShort(x: nat, k: nat)
    requires 1 <= k && x < Pow128(k)
    ensures |VarintBytes(x)| <= k
    decreases k
  {
    if x >= 0x80 {
      assert x / 0x80 < Pow128(k - 1);
      VarintShort(x / 0x80, k - 1);
    }
  }

  /** A 64-bit value never takes more than ten bytes. */
  lemma VarintAtMostTen(x: uint64)
    ensures |VarintBytes(x)| <= 10
  {
    assert Pow128(10) == 0x40_0000_0000_0000_0000;
    VarintShort(x, 10);
  }

  // ---------------------------------------------------------------------------
  // Fields

  /** Field numbers of profile.proto are small; protobuf allows at most 2^29 - 1. */
  type FieldNumber = n: int | 1 <= n < 0x2000_0000 witness 1

  const WIRE_VARINT: nat := 0
  const WIRE_LENGTH_DELIMITED: nat := 2

  datatype Field =
    | VarintField(number: FieldNumber, value: uint64)
    | BytesField(number: FieldNumber, payload: Bytes)

  function TagBytes(n: FieldNumber, wireType: nat): Bytes
  {
    VarintBytes(n * 8 + wireType)
  }

  function FieldBytes(f: Field): Bytes
  {
    match f
    case VarintField(n, v) => TagBytes(n, WIRE_VARINT) + VarintBytes(v)
    case BytesField(n, p) => TagBytes(n, WIRE_LENGTH_DELIMITED) + VarintBytes(|p|) + p
  }

  function Serialize(fs: seq<Field>): Bytes
  {
    if fs == [] then [] else FieldBytes(fs[0]) + Serialize(fs[1..])
  }

  lemma SerializeOne(f: Field)
    ensures Serialize([f]) == FieldBytes(f)
  {
    assert [f][1..] == [];
  }

  lemma {:induction false} SerializeAppend(a: seq<Field>, b: seq<Field>)
    ensures Serialize(a + b) == Serialize(a) + Serialize(b)
  {
    if a == [] {
      assert a + b == b;
    } else {
      assert (a + b)[1..] == a[1..] + b;
      SerializeAppend(a[1..], b);
    }
  }

  /** Reads one field from the front of `bs`; fails on a truncated field or an unknown wire type. */
  function ParseField(bs: Bytes): (r: Option<(Field, Bytes)>)
    ensures r.Some? ==> |r.value.1| < |bs|
  {
    match ParseVarint(bs)
    case None => None
    case Some((tag, rest)) =>
      var n := tag / 8;
      if n < 1 || n >= 0x2000_0000 then None
      else
        match ParseVarint(rest)
        case None => None
        case Some((v, after)) =>
          if tag % 8 == WIRE_VARINT then
            if v < TWO_64 then Some((VarintField(n, v), after)) else None
          else if tag % 8 == WIRE_LENGTH_DELIMITED then
            if v <= |after| then Some((BytesField(n, after[..v]), after[v..])) else None
          else None
  }

  /** Reads a whole buffer as a field list. */
  function ParseFields(bs: Bytes): Option<seq<Field>>
    decreases |bs|
  {
    if bs == [] then Some([])
    else
      match ParseField(bs)
      case None => None
      case Some((f, rest)) =>
        match ParseFields(rest)
        case None => None
        case Some(fs) => Some([f] + fs)
  }

  lemma ParseFieldRoundTrip(f: Field, tail: Bytes)
    ensures ParseField(FieldBytes(f) + tail) == Some((f, tail))
  {
    match f
    case VarintField(n, v) =>
      var tag: nat := n * 8;
      var rest := VarintBytes(v) + tail;
      assert FieldBytes(f) + tail == VarintBytes(tag) + rest;
      VarintRoundTrip(tag, rest);
      VarintRoundTrip(v, tail);
      assert tag / 8 == n && tag % 8 == 0;
    case BytesField(n, p) =>
      var tag: nat := n * 8 + 2;
      var rest := VarintBytes(|p|) + (p + tail);
      assert FieldBytes(f) + tail == VarintBytes(tag) + rest;
      VarintRoundTrip(tag, rest);
      VarintRoundTrip(|p|, p + tail);
      assert tag / 8 == n && tag % 8 == 2;
      assert (p + tail)[..|p|] == p && (p + tail)[|p|..] == tail;
  }

  lemma {:induction false} ParseSerialize(fs: seq<Field>)
    ensures ParseFields(Serialize(fs)) == Some(fs)
  {
    if fs != [] {
      ParseSerialize(fs[1..]);
      ParseFieldRoundTrip(fs[0], Serialize(fs[1..]));
      assert [fs[0]] + fs[1..] == fs;
    }
  }

  // ---------------------------------------------------------------------------
  // Packed repeated varints

  function PackVarints(vs: seq<uint64>): Bytes
  {
    if vs == [] then [] else VarintBytes(vs[0]) + PackVarints(vs[1..])
  }

  lemma {:induction false} PackAppend(vs: seq<uint64>, v: uint64)
    ensures PackVarints(vs + [v]) == PackVarints(vs) + VarintBytes(v)
  {
    if vs == [] {
      assert vs + [v] == [v];
    } else {
      assert (vs + [v])[1..] == vs[1..] + [v];
      PackAppend(vs[1..], v);
    }
  }

  /** Reads a packed payload as back-to-back varints; every value must fit in 64 bits. */
  function ParsePacked(bs: Bytes): Option<seq<uint64>>
    decreases |bs|
  {
    if bs == [] then Some([])
    else
      match ParseVarint(bs)
      case None => None
      case Some((v, rest)) =>
        if v >= TWO_64 then None
        else
          match ParsePacked(rest)
          case None => None
          case Some(vs) => Some([v] + vs)
  }

  lemma {:induction false} PackedRoundTrip(vs: seq<uint64>)
    ensures ParsePacked(PackVarints(vs)) == Some(vs)
  {
    if vs != [] {
      VarintRoundTrip(vs[0], PackVarints(vs[1..]));
      PackedRoundTrip(vs[1..]);
      assert [vs[0]] + vs[1..] == vs;
    }
  }

  // ---------------------------------------------------------------------------
  // The fields each primitive emits

  /** encodeInt64Opt: a varint field, omitted when the value is zero. */
  function Int64Opt(n: FieldNumber, v: int64): seq<Field>
  {
    if v == 0 then [] else [VarintField(n, ToUint64(v))]
  }

  /** encodeUint64Opt: a varint field, omitted when the value is zero. */
  function Uint64Opt(n: FieldNumber, v: uint64): seq<Field>
  {
    if v == 0 then [] else [VarintField(n, v)]
  }

  /** encodeBoolOpt: varint 1, omitted when false. */
  function BoolOpt(n: FieldNumber, b: bool): seq<Field>
  {
    if b then [VarintField(n, 1)] else []
  }

  /** encodeInt64: a varint field written even when the value is zero. */
  function Int64Always(n: FieldNumber, v: int64): seq<Field>
  {
    [VarintField(n, ToUint64(v))]
  }

  /** encodeUint64s: one length-delimited field of packed varints, omitted when the list is empty. */
  function PackedUint64s(n: FieldNumber, vs: seq<uint64>): seq<Field>
  {
    if vs == [] then [] else [BytesField(n, PackVarints(vs))]
  }

  /** encodeInt64s: as encodeUint64s, on the two's-complement bit patterns. */
  function PackedInt64s(n: FieldNumber, vs: seq<int64>): seq<Field>
  {
    PackedUint64s(n, Unsigned(vs))
  }

  /** One length-delimited field per payload, in order, all with the same number. */
  function LengthDelimitedFields(n: FieldNumber, ps: seq<Bytes>): (r: seq<Field>)
    ensures |r| == |ps|
    ensures forall i :: 0 <= i < |ps| ==> r[i] == BytesField(n, ps[i])
  {
    seq(|ps|, i requires 0 <= i < |ps| => BytesField(n, ps[i]))
  }

  /** encodeRepeatedMessage<T>: every element encoded by `enc` into its own field. */
  function RepeatedMessage<T>(n: FieldNumber, list: seq<T>, enc: T -> Bytes): (r: seq<Field>)
    ensures |r| == |list|
    ensures forall i :: 0 <= i < |list| ==> r[i] == BytesField(n, enc(list[i]))
  {
    LengthDelimitedFields(n, seq(|list|, i requires 0 <= i < |list| => enc(list[i])))
  }

  lemma LengthDelimitedSnoc(n: FieldNumber, ps: seq<Bytes>, p: Bytes)
    ensures Serialize(LengthDelimitedFields(n, ps + [p]))
         == Serialize(LengthDelimitedFields(n, ps)) + Serialize([BytesField(n, p)])
  {
    assert LengthDelimitedFields(n, ps + [p]) == LengthDelimitedFields(n, ps) + [BytesField(n, p)];
    SerializeAppend(LengthDelimitedFields(n, ps), [BytesField(n, p)]);
  }

  lemma RepeatedMessageSnoc<T>(n: FieldNumber, list: seq<T>, x: T, enc: T -> Bytes)
    ensures Serialize(RepeatedMessage(n, list + [x], enc))
         == Serialize(RepeatedMessage(n, list, enc)) + Serialize([BytesField(n, enc(x))])
  {
    var a, b := RepeatedMessage(n, list + [x], enc), RepeatedMessage(n, list, enc) + [BytesField(n, enc(x))];
    assert |a| == |b|;
    forall i | 0 <= i < |a| ensures a[i] == b[i] {
      if i < |list| {
        assert (list + [x])[i] == list[i];
      }
    }
    assert a == b;
    SerializeAppend(RepeatedMessage(n, list, enc), [BytesField(n, enc(x))]);
  }

  lemma LengthDelimitedPrefix(n: FieldNumber, ps: seq<Bytes>, i: nat)
    requires i < |ps|
    ensures Serialize(LengthDelimitedFields(n, ps[..i + 1]))
         == Serialize(LengthDelimitedFields(n, ps[..i])) + Serialize([BytesField(n, ps[i])])
  {
    LengthDelimitedSnoc(n, ps[..i], ps[i]);
    assert ps[..i + 1] == ps[..i] + [ps[i]];
  }

  lemma RepeatedMessagePrefix<T>(n: FieldNumber, list: seq<T>, i: nat, enc: T -> Bytes)
    requires i < |list|
    ensures Serialize(RepeatedMessage(n, list[..i + 1], enc))
         == Serialize(RepeatedMessage(n, list[..i], enc)) + Serialize([BytesField(n, enc(list[i]))])
  {
    var before, after := list[..i], list[..i + 1];
    assert after == before + [list[i]];
    RepeatedMessageSnoc(n, before, list[i], enc);
  }

  lemma AppendAssoc(a: Bytes, b: Bytes, c: Bytes)
    ensures (a + b) + c == a + (b + c)
  {
  }

  // ---------------------------------------------------------------------------
  /** Bookkeeping between two encoder calls: the fields written so far, then the next group. */
  lemma SerializeJoin(buf: Bytes, acc: seq<Field>, g: seq<Field>)
    ensures buf + Serialize(acc) + Serialize(g) == buf + Serialize(acc + g)
  {
    SerializeAppend(acc, g);
    AppendAssoc(buf, Serialize(acc), Serialize(g));
  }

  // ---------------------------------------------------------------------------
  // Messages as groups of fields, one group per encoder call

  /** The groups written one after the other. */
  function Concat(gs: seq<seq<Field>>): seq<Field>
  {
    if gs == [] then [] else Concat(gs[..|gs| - 1]) + gs[|gs| - 1]
  }

  lemma ConcatPrefix(gs: seq<seq<Field>>, k: nat)
    requires k < |gs|
    ensures Concat(gs[..k + 1]) == Concat(gs[..k]) + gs[k]
  {
    assert gs[..k + 1][..k] == gs[..k];
  }

  /** Every field of `fs` has number `n`. */
  ghost predicate AllNumbered(fs: seq<Field>, n: int)
  {
    forall i :: 0 <= i < |fs| ==> fs[i].number == n
  }

  /** Field numbers never decrease along `fs`. */
  ghost predicate InFieldOrder(fs: seq<Field>)
  {
    forall i, j :: 0 <= i < j < |fs| ==> fs[i].number <= fs[j].number
  }

  /** How many fields of `fs` have number `n`. */
  function CountField(fs: seq<Field>, n: int): nat
  {
    if fs == [] then 0 else CountField(fs[..|fs| - 1], n) + (if fs[|fs| - 1].number == n then 1 else 0)
  }

  lemma {:induction false} CountAppend(a: seq<Field>, b: seq<Field>, n: int)
    ensures CountField(a + b, n) == CountField(a, n) + CountField(b, n)
    decreases |b|
  {
    if b == [] {
      assert a + b == a;
    } else {
      assert (a + b)[..|a + b| - 1] == a + b[..|b| - 1];
      CountAppend(a, b[..|b| - 1], n);
    }
  }

  lemma {:induction false} CountNumbered(fs: seq<Field>, k: int, n: int)
    requires AllNumbered(fs, k)
    ensures CountField(fs, n) == if n == k then |fs| else 0
    decreases |fs|
  {
    if fs != [] {
      CountNumbered(fs[..|fs| - 1], k, n);
    }
  }

  /** When the i-th group carries only field number `first + i`, field `n` occurs as often as its group has fields. */
  lemma {:induction false} GroupsCount(gs: seq<seq<Field>>, first: int, n: int)
    requires forall i :: 0 <= i < |gs| ==> AllNumbered(gs[i], first + i)
    ensures CountField(Concat(gs), n) == if first <= n < first + |gs| then |gs[n - first]| else 0
    decreases |gs|
  {
    if gs != [] {
      var init, last := gs[..|gs| - 1], gs[|gs| - 1];
      GroupsCount(init, first, n);
      CountAppend(Concat(init), last, n);
      CountNumbered(last, first + |gs| - 1, n);
    }
  }

  /** Such groups hold field numbers from `first` up to `first + |gs| - 1`, never decreasing. */
  lemma {:induction false} GroupsOrdered(gs: seq<seq<Field>>, first: int)
    requires forall i :: 0 <= i < |gs| ==> AllNumbered(gs[i], first + i)
    ensures InFieldOrder(Concat(gs))
    ensures forall i :: 0 <= i < |Concat(gs)| ==> Concat(gs)[i].number < first + |gs|
    decreases |gs|
  {
    if gs != [] {
      var init, last := gs[..|gs| - 1], gs[|gs| - 1];
      GroupsOrdered(init, first);
      OrderedSnoc(Concat(init), last, first + |gs| - 1);
    }
  }

  lemma OrderedSnoc(a: seq<Field>, b: seq<Field>, n: int)
    requires InFieldOrder(a) && AllNumbered(b, n)
    requires forall i :: 0 <= i < |a| ==> a[i].number < n
    ensures InFieldOrder(a + b)
    ensures forall i :: 0 <= i < |a + b| ==> (a + b)[i].number <= n
  {
    var all := a + b;
    forall i, j | 0 <= i < j < |all| ensures all[i].number <= all[j].number {
      if j >= |a| {
        assert all[j] == b[j - |a|];
        if i >= |a| {
          assert all[i] == b[i - |a|];
        }
      }
    }
    forall i | 0 <= i < |all| ensures all[i].number <= n {
      if i >= |a| {
        assert all[i] == b[i - |a|];
      }
    }
  }

  lemma SerializeConcatPrefix(buf: Bytes, gs: seq<seq<Field>>, k: nat)
    requires k < |gs|
    ensures buf + Serialize(Concat(gs[..k])) + Serialize(gs[k]) == buf + Serialize(Concat(gs[..k + 1]))
  {
    ConcatPrefix(gs, k);
    SerializeJoin(buf, Concat(gs[..k]), gs[k]);
  }

  /** The buffer after groups 0..k-1 have been written to it in order. */
  function Written(buf: Bytes, gs: seq<seq<Field>>, k: nat): Bytes
    requires k <= |gs|
  {
    if k == 0 then buf else Written(buf, gs, k - 1) + Serialize(gs[k - 1])
  }

  /** Writing groups one after another writes their concatenation. */
  lemma {:induction false} WrittenConcat(buf: Bytes, gs: seq<seq<Field>>, k: nat)
    requires k <= |gs|
    ensures Written(buf, gs, k) == buf + Serialize(Concat(gs[..k]))
  {
    if k == 0 {
      assert gs[..0] == [];
    } else {
      WrittenConcat(buf, gs, k - 1);
      SerializeConcatPrefix(buf, gs, k - 1);
    }
  }

  /** Writing every group writes the concatenation of all of them. */
  lemma WrittenAll(buf: Bytes, gs: seq<seq<Field>>)
    ensures Written(buf, gs, |gs|) == buf + Serialize(Concat(gs))
  {
    WrittenConcat(buf, gs, |gs|);
    assert gs[..|gs|] == gs;
  }

  // The primitives as byte-appending methods

  method EncodeVarint(x: nat, buf: Bytes) returns (out: Bytes)
    ensures out == buf + VarintBytes(x)
  {
    var v := x;
    out := buf;
    while v >= 0x80
      invariant out + VarintBytes(v) == buf + VarintBytes(x)
      decreases v
    {
      assert VarintBytes(v) == [v % 0x80 + 0x80] + VarintBytes(v / 0x80);
      out := out + [v % 0x80 + 0x80];
      v := v / 0x80;
    }
    out := out + [v];
  }

  method EncodeTag(n: FieldNumber, wireType: nat, buf: Bytes) returns (out: Bytes)
    ensures out == buf + TagBytes(n, wireType)
  {
    out := EncodeVarint(n * 8 + wireType, buf);
  }

  method EncodeInt64Opt(n: FieldNumber, v: int64, buf: Bytes) returns (out: Bytes)
    ensures out == buf + Serialize(Int64Opt(n, v))
  {
    SerializeOne(VarintField(n, ToUint64(v)));
    out := buf;
    if v != 0 {
      out := EncodeTag(n, WIRE_VARINT, out);
      out := EncodeVarint(ToUint64(v), out);
    }
  }

  method EncodeUint64Opt(n: FieldNumber, v: uint64, buf: Bytes) returns (out: Bytes)
    ensures out == buf + Serialize(Uint64Opt(n, v))
  {
    SerializeOne(VarintField(n, v));
    out := buf;
    if v != 0 {
      out := EncodeTag(n, WIRE_VARINT, out);
      out := EncodeVarint(v, out);
    }
  }

  method EncodeBoolOpt(n: FieldNumber, b: bool, buf: Bytes) returns (out: Bytes)
    ensures out == buf + Serialize(BoolOpt(n, b))
  {
    SerializeOne(VarintField(n, 1));
    out := buf;
    if b {
      out := EncodeTag(n, WIRE_VARINT, out);
      out := EncodeVarint(1, out);
    }
  }

  method EncodeInt64(n: FieldNumber, v: int64, buf: Bytes) returns (out: Bytes)
    ensures out == buf + Serialize(Int64Always(n, v))
  {
    SerializeOne(VarintField(n, ToUint64(v)));
    out := EncodeTag(n, WIRE_VARINT, buf);
    out := EncodeVarint(ToUint64(v), out);
  }

  /** Tag, payload length, payload: what encodeMessage writes once the message is in its own buffer. */
  method EncodeLengthDelimited(n: FieldNumber, payload: Bytes, buf: Bytes) returns (out: Bytes)
    ensures out == buf + Serialize([BytesField(n, payload)])
  {
    SerializeOne(BytesField(n, payload));
    out := EncodeTag(n, WIRE_LENGTH_DELIMITED, buf);
    out := EncodeVarint(|payload|, out);
    out := out + payload;
  }

  method EncodeUint64s(n: FieldNumber, vs: seq<uint64>, buf: Bytes) returns (out: Bytes)
    ensures out == buf + Serialize(PackedUint64s(n, vs))
  {
    out := buf;
    if |vs| > 0 {
      var packed: Bytes := [];
      for i := 0 to |vs|
        invariant packed == PackVarints(vs[..i])
      {
        PackAppend(vs[..i], vs[i]);
        assert vs[..i + 1] == vs[..i] + [vs[i]];
        packed := EncodeVarint(vs[i], packed);
      }
      assert vs[..|vs|] == vs;
      out := EncodeLengthDelimited(n, packed, out);
    }
  }

  method EncodeInt64s(n: FieldNumber, vs: seq<int64>, buf: Bytes) returns (out: Bytes)
    ensures out == buf + Serialize(PackedInt64s(n, vs))
  {
    out := EncodeUint64s(n, Unsigned(vs), buf);
  }

  /** encodeStrings: one length-delimited field per string, the empty string included. */
  method EncodeStrings(n: FieldNumber, ss: seq<Bytes>, buf: Bytes) returns (out: Bytes)
    ensures out == buf + Serialize(LengthDelimitedFields(n, ss))
  {
    out := buf;
    for i := 0 to |ss|
      invariant out == buf + Serialize(LengthDelimitedFields(n, ss[..i]))
    {
      LengthDelimitedPrefix(n, ss, i);
      out := EncodeLengthDelimited(n, ss[i], out);
      AppendAssoc(buf, Serialize(LengthDelimitedFields(n, ss[..i])), Serialize([BytesField(n, ss[i])]));
    }
    assert ss[..|ss|] == ss;
  }

  /**
   * encodeRepeatedMessage<T>: each element is encoded into a buffer of its
   * own by T's encode routine, whose result `enc` gives, and written as one
   * length-delimited field, in list order.
   */
  method EncodeRepeatedMessage<T>(n: FieldNumber, list: seq<T>, enc: T -> Bytes, buf: Bytes) returns (out: Bytes)
    ensures out == buf + Serialize(RepeatedMessage(n, list, enc))
  {
    out := buf;
    for i := 0 to |list|
      invariant out == buf + Serialize(RepeatedMessage(n, list[..i], enc))
    {
      RepeatedMessagePrefix(n, list, i, enc);
      out := EncodeLengthDelimited(n, enc(list[i]), out);
      AppendAssoc(buf, Serialize(RepeatedMessage(n, list[..i], enc)), Serialize([BytesField(n, enc(list[i]))]));
    }
    assert list[..|list|] == list;
  }

  /** encodeMessage: one message, encoded by `enc`, as a length-delimited field. */
  method EncodeMessage<T>(n: FieldNumber, x: T, enc: T -> Bytes, buf: Bytes) returns (out: Bytes)
    ensures out == buf + Serialize([BytesField(n, enc(x))])
  {
    out := EncodeLengthDelimited(n, enc(x), buf);
  }

  // ---------------------------------------------------------------------------
  // Decoding: a message is read by folding a step over its fields

  function FoldFields<A>(fs: seq<Field>, acc: A, step: (A, Field) -> Option<A>): (r: Option<A>)
    ensures |fs| == 1 ==> r == step(acc, fs[0])
  {
    if fs == [] then Some(acc)
    else
      match step(acc, fs[0])
      case None => None
      case Some(a) => FoldFields(fs[1..], a, step)
  }

  lemma {:induction false} FoldAppend<A>(a: seq<Field>, b: seq<Field>, acc: A, step: (A, Field) -> Option<A>)
    ensures FoldFields(a + b, acc, step)
         == match FoldFields(a, acc, step)
            case None => None
            case Some(x) => FoldFields(b, x, step)
  {
    if a == [] {
      assert a + b == b;
    } else {
      assert (a + b)[1..] == a[1..] + b;
      match step(acc, a[0])
      case None =>
      case Some(x) => FoldAppend(a[1..], b, x, step);
    }
  }

  /** Folding over `a + g` once `a` is known to lead to `mid`. */
  lemma FoldThen<A>(a: seq<Field>, g: seq<Field>, acc: A, mid: A, step: (A, Field) -> Option<A>)
    requires FoldFields(a, acc, step) == Some(mid)
    ensures FoldFields(a + g, acc, step) == FoldFields(g, mid, step)
  {
    FoldAppend(a, g, acc, step);
  }

  /** If each field takes `accs[i]` to `accs[i + 1]`, the whole list takes `accs[0]` to the last one. */
  lemma {:induction false} FoldEach<A>(fs: seq<Field>, accs: seq<A>, step: (A, Field) -> Option<A>)
    requires |accs| == |fs| + 1
    requires forall i :: 0 <= i < |fs| ==> step(accs[i], fs[i]) == Some(accs[i + 1])
    ensures FoldFields(fs, accs[0], step) == Some(accs[|fs|])
  {
    if fs != [] {
      assert step(accs[0], fs[0]) == Some(accs[1]);
      FoldEach(fs[1..], accs[1..], step);
    }
  }

  /** Reads a whole message: parse its fields, then fold `step` over them from the empty message. */
  function DecodeMessage<A>(bs: Bytes, empty: A, step: (A, Field) -> Option<A>): Option<A>
  {
    match ParseFields(bs)
    case None => None
    case Some(fs) => FoldFields(fs, empty, step)
  }

  /** A message whose fields fold to `x` decodes, from its bytes, to `x`. */
  lemma DecodeSerialized<A>(fs: seq<Field>, empty: A, x: A, step: (A, Field) -> Option<A>)
    requires FoldFields(fs, empty, step) == Some(x)
    ensures DecodeMessage(Serialize(fs), empty, step) == Some(x)
  {
    ParseSerialize(fs);
  }
}
