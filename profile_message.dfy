/**
 * The Profile message: the fields `Profile::encode` writes, in the order it
 * writes them, and a proto3 reader for them.
 *
 * `ProfileData` is the value of a profile's fields at the moment it is
 * encoded. `Groups` lists what each of the fourteen encoder calls emits;
 * the i-th call writes only field number i + 1, so the message is in
 * field-number order and each optional field occurs at most once.
 */
module ProfileMessage {
  import opened Wire
  import opened Entities

  datatype ProfileData = ProfileData(
    sampleType: seq<ValueType>,
    sample: seq<Sample>,
    mapping: seq<Mapping>,
    location: seq<ProfileLocation>,
    functions: seq<ProfileFunction>,
    strings: seq<Bytes>,
    dropFramesX: int64,
    keepFramesX: int64,
    timeNanos: int64,
    durationNanos: int64,
    periodType: ValueType,
    period: int64,
    commentX: seq<int64>,
    defaultSampleTypeX: int64)

  const EmptyProfile := ProfileData([], [], [], [], [], [], 0, 0, 0, 0, EmptyValueType, 0, [], 0)

  /**
   * The encoders of the five nested message types. The Profile message is
   * stated over any such encoders, so that a proof about one of its fields
   * does not see how the other fields' nested messages are laid out;
   * `EntityWriters` are the encoders of `Entities`.
   */
  datatype Writers = Writers(
    valueType: ValueType -> Bytes,
    sample: Sample -> Bytes,
    mapping: Mapping -> Bytes,
    location: ProfileLocation -> Bytes,
    func: ProfileFunction -> Bytes)

  const EntityWriters := Writers(ValueTypeBytes, SampleBytes, MappingBytes, LocationBytes, FunctionBytes)

  /** The period type is written as a nested message only when one of its ids is non-zero. */
  function PeriodTypeFields(w: Writers, v: ValueType): seq<Field>
  {
    if v.typeX != 0 || v.unitX != 0 then [BytesField(11, w.valueType(v))] else []
  }

  /** What each call of Profile::encode emits, in call order. */
  function Groups(w: Writers, p: ProfileData): (gs: seq<seq<Field>>)
    ensures |gs| == 14
  {
    [ RepeatedMessage(1, p.sampleType, w.valueType),
      RepeatedMessage(2, p.sample, w.sample),
      RepeatedMessage(3, p.mapping, w.mapping),
      RepeatedMessage(4, p.location, w.location),
      RepeatedMessage(5, p.functions, w.func),
      LengthDelimitedFields(6, p.strings),
      Int64Opt(7, p.dropFramesX),
      Int64Opt(8, p.keepFramesX),
      Int64Opt(9, p.timeNanos),
      Int64Opt(10, p.durationNanos),
      PeriodTypeFields(w, p.periodType),
      Int64Opt(12, p.period),
      PackedInt64s(13, p.commentX),
      Int64Always(14, p.defaultSampleTypeX) ]
  }

  /**
   * The groups `ProfileFields` concatenates, one per encoder call, with the
   * entity encoders in place of the writers: first the five repeated
   * messages and the string table ...
   */
  ghost predicate TableCalls(gs: seq<seq<Field>>, p: ProfileData)
  {
    |gs| == 14 &&
    gs[0] == RepeatedMessage(1, p.sampleType, ValueTypeBytes) &&
    gs[1] == RepeatedMessage(2, p.sample, SampleBytes) &&
    gs[2] == RepeatedMessage(3, p.mapping, MappingBytes) &&
    gs[3] == RepeatedMessage(4, p.location, LocationBytes) &&
    gs[4] == RepeatedMessage(5, p.functions, FunctionBytes) &&
    gs[5] == LengthDelimitedFields(6, p.strings)
  }

  /** ... then the scalars, the period type and the comments. */
  ghost predicate ScalarCalls(gs: seq<seq<Field>>, p: ProfileData)
  {
    |gs| == 14 &&
    gs[6] == Int64Opt(7, p.dropFramesX) &&
    gs[7] == Int64Opt(8, p.keepFramesX) &&
    gs[8] == Int64Opt(9, p.timeNanos) &&
    gs[9] == Int64Opt(10, p.durationNanos) &&
    gs[10] == (if p.periodType.typeX != 0 || p.periodType.unitX != 0
               then [BytesField(11, ValueTypeBytes(p.periodType))] else []) &&
    gs[11] == Int64Opt(12, p.period) &&
    gs[12] == PackedInt64s(13, p.commentX) &&
    gs[13] == Int64Always(14, p.defaultSampleTypeX)
  }

  lemma EntityTableGroups(p: ProfileData)
    ensures TableCalls(Groups(EntityWriters, p), p)
  {
  }

  lemma EntityScalarGroups(p: ProfileData)
    ensures ScalarCalls(Groups(EntityWriters, p), p)
  {
  }

  /** The fields Profile::encode writes. */
  function ProfileFields(p: ProfileData): seq<Field>
  {
    Concat(Groups(EntityWriters, p))
  }

  function ProfileBytes(p: ProfileData): Bytes
  {
    Serialize(ProfileFields(p))
  }

  // ---------------------------------------------------------------------------
  // Field numbers, order and elision

  /** The i-th encoder call writes field number i + 1 and nothing else. */
  lemma GroupsNumbered(w: Writers, p: ProfileData)
    ensures forall i :: 0 <= i < 14 ==> AllNumbered(Groups(w, p)[i], 1 + i)
  {
  }

  /** Profile::encode writes its fields in field-number order, numbers 1 to 14 only. */
  lemma ProfileInFieldOrder(p: ProfileData)
    ensures InFieldOrder(ProfileFields(p))
    ensures forall i :: 0 <= i < |ProfileFields(p)| ==> 1 <= ProfileFields(p)[i].number <= 14
  {
    GroupsNumbered(EntityWriters, p);
    GroupsOrdered(Groups(EntityWriters, p), 1);
    forall i | 0 <= i < |ProfileFields(p)| ensures 1 <= ProfileFields(p)[i].number {
    }
  }

  /** The period type (field 11) is present exactly when one of its two ids is non-zero. */
  lemma PeriodTypeElided(p: ProfileData)
    ensures CountField(ProfileFields(p), 11)
         == if p.periodType.typeX != 0 || p.periodType.unitX != 0 then 1 else 0
  {
    GroupsNumbered(EntityWriters, p);
    GroupsCount(Groups(EntityWriters, p), 1, 11);
  }

  /** The default sample type (field 14) is always written, once, and last, even when it is zero. */
  lemma DefaultSampleTypeAlwaysPresent(p: ProfileData)
    ensures CountField(ProfileFields(p), 14) == 1
    ensures var fs := ProfileFields(p);
            |fs| > 0 && fs[|fs| - 1] == VarintField(14, ToUint64(p.defaultSampleTypeX))
  {
    GroupsNumbered(EntityWriters, p);
    GroupsCount(Groups(EntityWriters, p), 1, 14);
  }

  /** The scalar fields 7, 8, 9, 10 and 12 are each present exactly when their value is non-zero. */
  lemma ScalarsElided(p: ProfileData)
    ensures CountField(ProfileFields(p), 7) == if p.dropFramesX == 0 then 0 else 1
    ensures CountField(ProfileFields(p), 8) == if p.keepFramesX == 0 then 0 else 1
    ensures CountField(ProfileFields(p), 9) == if p.timeNanos == 0 then 0 else 1
    ensures CountField(ProfileFields(p), 10) == if p.durationNanos == 0 then 0 else 1
    ensures CountField(ProfileFields(p), 12) == if p.period == 0 then 0 else 1
  {
    GroupsNumbered(EntityWriters, p);
    GroupsCount(Groups(EntityWriters, p), 1, 7);
    GroupsCount(Groups(EntityWriters, p), 1, 8);
    GroupsCount(Groups(EntityWriters, p), 1, 9);
    GroupsCount(Groups(EntityWriters, p), 1, 10);
    GroupsCount(Groups(EntityWriters, p), 1, 12);
  }

  /**
   * Every repeated field occurs once per element: one field per sample type,
   * sample, mapping, location, function and string; the comments are packed
   * into one field that is left out when there are none.
   */
  lemma RepeatedCounts(p: ProfileData)
    ensures CountField(ProfileFields(p), 1) == |p.sampleType|
    ensures CountField(ProfileFields(p), 2) == |p.sample|
    ensures CountField(ProfileFields(p), 3) == |p.mapping|
    ensures CountField(ProfileFields(p), 4) == |p.location|
    ensures CountField(ProfileFields(p), 5) == |p.functions|
    ensures CountField(ProfileFields(p), 6) == |p.strings|
    ensures CountField(ProfileFields(p), 13) == if p.commentX == [] then 0 else 1
  {
    GroupsNumbered(EntityWriters, p);
    GroupsCount(Groups(EntityWriters, p), 1, 1);
    GroupsCount(Groups(EntityWriters, p), 1, 2);
    GroupsCount(Groups(EntityWriters, p), 1, 3);
    GroupsCount(Groups(EntityWriters, p), 1, 4);
    GroupsCount(Groups(EntityWriters, p), 1, 5);
    GroupsCount(Groups(EntityWriters, p), 1, 6);
    GroupsCount(Groups(EntityWriters, p), 1, 13);
  }

  /** A profile with every field at its default encodes as the single field 14 = 0. */
  lemma EmptyProfileFields()
    ensures ProfileFields(EmptyProfile) == [VarintField(14, 0)]
  {
    var gs := Groups(EntityWriters, EmptyProfile);
    assert forall k :: 0 < k <= 13 ==> Concat(gs[..k]) == [] by {
      forall k | 0 < k <= 13 ensures Concat(gs[..k]) == [] {
        EmptyPrefix(gs, k);
      }
    }
    ConcatPrefix(gs, 13);
    assert gs[..14] == gs;
  }

  lemma {:induction false} EmptyPrefix(gs: seq<seq<Field>>, k: nat)
    requires k <= |gs|
    requires forall i :: 0 <= i < k ==> gs[i] == []
    ensures Concat(gs[..k]) == []
  {
    if k > 0 {
      EmptyPrefix(gs, k - 1);
      ConcatPrefix(gs, k - 1);
    }
  }

  // ---------------------------------------------------------------------------
  // Decoding

  /** The readers of the five nested message types, the partners of `Writers`. */
  datatype Readers = Readers(
    valueType: Bytes -> Option<ValueType>,
    sample: Bytes -> Option<Sample>,
    mapping: Bytes -> Option<Mapping>,
    location: Bytes -> Option<ProfileLocation>,
    func: Bytes -> Option<ProfileFunction>)

  const EntityReaders := Readers(DecodeValueType, DecodeSample, DecodeMapping, DecodeLocation, DecodeFunction)

  /** Each reader gives back what the matching writer wrote. */
  ghost predicate ReadsBack(r: Readers, w: Writers)
  {
    (forall v :: r.valueType(w.valueType(v)) == Some(v)) &&
    (forall s :: r.sample(w.sample(s)) == Some(s)) &&
    (forall m :: r.mapping(w.mapping(m)) == Some(m)) &&
    (forall l :: r.location(w.location(l)) == Some(l)) &&
    (forall f :: r.func(w.func(f)) == Some(f))
  }

  /** The readers of `Entities` read back what its encoders write. */
  lemma EntityReadersReadBack()
    ensures ReadsBack(EntityReaders, EntityWriters)
  {
    forall v ensures DecodeValueType(ValueTypeBytes(v)) == Some(v) {
      ValueTypeRoundTrip(v);
    }
    forall s ensures DecodeSample(SampleBytes(s)) == Some(s) {
      SampleRoundTrip(s);
    }
    forall m ensures DecodeMapping(MappingBytes(m)) == Some(m) {
      MappingRoundTrip(m);
    }
    forall l ensures DecodeLocation(LocationBytes(l)) == Some(l) {
      LocationRoundTrip(l);
    }
    forall f ensures DecodeFunction(FunctionBytes(f)) == Some(f) {
      FunctionRoundTrip(f);
    }
  }

  /**
   * One field of a Profile message: repeated fields append, scalar fields
   * overwrite, unknown fields are skipped; a malformed nested message fails.
   */
  function ProfileStep(r: Readers, p: ProfileData, f: Field): Option<ProfileData>
  {
    match f
    case VarintField(n, x) =>
      Some(
        if n == 7 then p.(dropFramesX := ToInt64(x))
        else if n == 8 then p.(keepFramesX := ToInt64(x))
        else if n == 9 then p.(timeNanos := ToInt64(x))
        else if n == 10 then p.(durationNanos := ToInt64(x))
        else if n == 12 then p.(period := ToInt64(x))
        else if n == 14 then p.(defaultSampleTypeX := ToInt64(x))
        else p)
    case BytesField(n, b) =>
      if n == 1 then
        match r.valueType(b)
        case None => None
        case Some(v) => Some(p.(sampleType := p.sampleType + [v]))
      else if n == 2 then
        match r.sample(b)
        case None => None
        case Some(s) => Some(p.(sample := p.sample + [s]))
      else if n == 3 then
        match r.mapping(b)
        case None => None
        case Some(m) => Some(p.(mapping := p.mapping + [m]))
      else if n == 4 then
        match r.location(b)
        case None => None
        case Some(l) => Some(p.(location := p.location + [l]))
      else if n == 5 then
        match r.func(b)
        case None => None
        case Some(fn) => Some(p.(functions := p.functions + [fn]))
      else if n == 6 then
        Some(p.(strings := p.strings + [b]))
      else if n == 11 then
        match r.valueType(b)
        case None => None
        case Some(v) => Some(p.(periodType := v))
      else if n == 13 then
        match ParsePacked(b)
        case None => None
        case Some(vs) => Some(p.(commentX := p.commentX + Signed(vs)))
      else Some(p)
  }

  function Step(r: Readers): (ProfileData, Field) -> Option<ProfileData>
  {
    (p, f) => ProfileStep(r, p, f)
  }

  /** Reads a Profile message. */
  function DecodeProfile(bs: Bytes): Option<ProfileData>
  {
    DecodeMessage(bs, EmptyProfile, Step(EntityReaders))
  }

  /** The profile once the fields of the first `k` encoder calls have been read back. */
  function Partial(p: ProfileData, k: nat): ProfileData
  {
    ProfileData(
      if k > 0 then p.sampleType else [],
      if k > 1 then p.sample else [],
      if k > 2 then p.mapping else [],
      if k > 3 then p.location else [],
      if k > 4 then p.functions else [],
      if k > 5 then p.strings else [],
      if k > 6 then p.dropFramesX else 0,
      if k > 7 then p.keepFramesX else 0,
      if k > 8 then p.timeNanos else 0,
      if k > 9 then p.durationNanos else 0,
      if k > 10 then p.periodType else EmptyValueType,
      if k > 11 then p.period else 0,
      if k > 12 then p.commentX else [],
      if k > 13 then p.defaultSampleTypeX else 0)
  }

  lemma SampleTypesRead(r: Readers, w: Writers, xs: seq<ValueType>, acc: ProfileData)
    requires ReadsBack(r, w) && acc.sampleType == []
    ensures FoldFields(RepeatedMessage(1, xs, w.valueType), acc, Step(r)) == Some(acc.(sampleType := xs))
  {
    var accs := seq(|xs| + 1, i requires 0 <= i <= |xs| => acc.(sampleType := xs[..i]));
    forall i | 0 <= i < |xs|
      ensures Step(r)(accs[i], RepeatedMessage(1, xs, w.valueType)[i]) == Some(accs[i + 1])
    {
      assert xs[..i] + [xs[i]] == xs[..i + 1];
    }
    FoldEach(RepeatedMessage(1, xs, w.valueType), accs, Step(r));
    assert xs[..|xs|] == xs;
  }

  lemma SamplesRead(r: Readers, w: Writers, xs: seq<Sample>, acc: ProfileData)
    requires ReadsBack(r, w) && acc.sample == []
    ensures FoldFields(RepeatedMessage(2, xs, w.sample), acc, Step(r)) == Some(acc.(sample := xs))
  {
    var accs := seq(|xs| + 1, i requires 0 <= i <= |xs| => acc.(sample := xs[..i]));
    forall i | 0 <= i < |xs|
      ensures Step(r)(accs[i], RepeatedMessage(2, xs, w.sample)[i]) == Some(accs[i + 1])
    {
      assert xs[..i] + [xs[i]] == xs[..i + 1];
    }
    FoldEach(RepeatedMessage(2, xs, w.sample), accs, Step(r));
    assert xs[..|xs|] == xs;
  }

  lemma MappingsRead(r: Readers, w: Writers, xs: seq<Mapping>, acc: ProfileData)
    requires ReadsBack(r, w) && acc.mapping == []
    ensures FoldFields(RepeatedMessage(3, xs, w.mapping), acc, Step(r)) == Some(acc.(mapping := xs))
  {
    var accs := seq(|xs| + 1, i requires 0 <= i <= |xs| => acc.(mapping := xs[..i]));
    forall i | 0 <= i < |xs|
      ensures Step(r)(accs[i], RepeatedMessage(3, xs, w.mapping)[i]) == Some(accs[i + 1])
    {
      assert xs[..i] + [xs[i]] == xs[..i + 1];
    }
    FoldEach(RepeatedMessage(3, xs, w.mapping), accs, Step(r));
    assert xs[..|xs|] == xs;
  }

  lemma LocationsRead(r: Readers, w: Writers, xs: seq<ProfileLocation>, acc: ProfileData)
    requires ReadsBack(r, w) && acc.location == []
    ensures FoldFields(RepeatedMessage(4, xs, w.location), acc, Step(r)) == Some(acc.(location := xs))
  {
    var accs := seq(|xs| + 1, i requires 0 <= i <= |xs| => acc.(location := xs[..i]));
    forall i | 0 <= i < |xs|
      ensures Step(r)(accs[i], RepeatedMessage(4, xs, w.location)[i]) == Some(accs[i + 1])
    {
      assert xs[..i] + [xs[i]] == xs[..i + 1];
    }
    FoldEach(RepeatedMessage(4, xs, w.location), accs, Step(r));
    assert xs[..|xs|] == xs;
  }

  lemma FunctionsRead(r: Readers, w: Writers, xs: seq<ProfileFunction>, acc: ProfileData)
    requires ReadsBack(r, w) && acc.functions == []
    ensures FoldFields(RepeatedMessage(5, xs, w.func), acc, Step(r)) == Some(acc.(functions := xs))
  {
    var accs := seq(|xs| + 1, i requires 0 <= i <= |xs| => acc.(functions := xs[..i]));
    forall i | 0 <= i < |xs|
      ensures Step(r)(accs[i], RepeatedMessage(5, xs, w.func)[i]) == Some(accs[i + 1])
    {
      assert xs[..i] + [xs[i]] == xs[..i + 1];
    }
    FoldEach(RepeatedMessage(5, xs, w.func), accs, Step(r));
    assert xs[..|xs|] == xs;
  }

  lemma StringsRead(r: Readers, xs: seq<Bytes>, acc: ProfileData)
    requires acc.strings == []
    ensures FoldFields(LengthDelimitedFields(6, xs), acc, Step(r)) == Some(acc.(strings := xs))
  {
    var accs := seq(|xs| + 1, i requires 0 <= i <= |xs| => acc.(strings := xs[..i]));
    forall i | 0 <= i < |xs|
      ensures Step(r)(accs[i], LengthDelimitedFields(6, xs)[i]) == Some(accs[i + 1])
    {
      assert xs[..i] + [xs[i]] == xs[..i + 1];
    }
    FoldEach(LengthDelimitedFields(6, xs), accs, Step(r));
    assert xs[..|xs|] == xs;
  }

  /** Reading the fields of the k-th encoder call fills in exactly the k-th field. */
  lemma GroupRead(r: Readers, w: Writers, p: ProfileData, k: nat)
    requires ReadsBack(r, w) && k < 14
    ensures FoldFields(Groups(w, p)[k], Partial(p, k), Step(r)) == Some(Partial(p, k + 1))
  {
    if k < 6 {
      ListGroupRead(r, w, p, k);
    } else {
      ScalarGroupRead(r, w, p, k);
    }
  }

  /** The repeated fields 1 to 6. */
  lemma ListGroupRead(r: Readers, w: Writers, p: ProfileData, k: nat)
    requires ReadsBack(r, w) && 0 <= k < 6
    ensures FoldFields(Groups(w, p)[k], Partial(p, k), Step(r)) == Some(Partial(p, k + 1))
  {
    if k == 0 {
      SampleTypesGroupRead(r, w, p);
      assert Groups(w, p)[k] == Groups(w, p)[0];
      assert Partial(p, k) == Partial(p, 0) && Partial(p, k + 1) == Partial(p, 1);
    } else if k == 1 {
      SamplesGroupRead(r, w, p);
      assert Groups(w, p)[k] == Groups(w, p)[1];
      assert Partial(p, k) == Partial(p, 1) && Partial(p, k + 1) == Partial(p, 2);
    } else if k == 2 {
      MappingsGroupRead(r, w, p);
      assert Groups(w, p)[k] == Groups(w, p)[2];
      assert Partial(p, k) == Partial(p, 2) && Partial(p, k + 1) == Partial(p, 3);
    } else if k == 3 {
      LocationsGroupRead(r, w, p);
      assert Groups(w, p)[k] == Groups(w, p)[3];
      assert Partial(p, k) == Partial(p, 3) && Partial(p, k + 1) == Partial(p, 4);
    } else if k == 4 {
      FunctionsGroupRead(r, w, p);
      assert Groups(w, p)[k] == Groups(w, p)[4];
      assert Partial(p, k) == Partial(p, 4) && Partial(p, k + 1) == Partial(p, 5);
    } else {
      StringsGroupRead(r, w, p);
      assert Groups(w, p)[k] == Groups(w, p)[5];
      assert Partial(p, k) == Partial(p, 5) && Partial(p, k + 1) == Partial(p, 6);
    }
  }

  /** The single-valued fields 7 to 14. */
  lemma ScalarGroupRead(r: Readers, w: Writers, p: ProfileData, k: nat)
    requires ReadsBack(r, w) && 6 <= k < 14
    ensures FoldFields(Groups(w, p)[k], Partial(p, k), Step(r)) == Some(Partial(p, k + 1))
  {
    if k == 6 {
      DropFramesRead(r, w, p);
      assert Groups(w, p)[k] == Groups(w, p)[6];
      assert Partial(p, k) == Partial(p, 6) && Partial(p, k + 1) == Partial(p, 7);
    } else if k == 7 {
      KeepFramesRead(r, w, p);
      assert Groups(w, p)[k] == Groups(w, p)[7];
      assert Partial(p, k) == Partial(p, 7) && Partial(p, k + 1) == Partial(p, 8);
    } else if k == 8 {
      TimeNanosRead(r, w, p);
      assert Groups(w, p)[k] == Groups(w, p)[8];
      assert Partial(p, k) == Partial(p, 8) && Partial(p, k + 1) == Partial(p, 9);
    } else if k == 9 {
      DurationNanosRead(r, w, p);
      assert Groups(w, p)[k] == Groups(w, p)[9];
      assert Partial(p, k) == Partial(p, 9) && Partial(p, k + 1) == Partial(p, 10);
    } else if k == 10 {
      PeriodTypeRead(r, w, p);
      assert Groups(w, p)[k] == Groups(w, p)[10];
      assert Partial(p, k) == Partial(p, 10) && Partial(p, k + 1) == Partial(p, 11);
    } else if k == 11 {
      PeriodRead(r, w, p);
      assert Groups(w, p)[k] == Groups(w, p)[11];
      assert Partial(p, k) == Partial(p, 11) && Partial(p, k + 1) == Partial(p, 12);
    } else if k == 12 {
      CommentsRead(r, w, p);
      assert Groups(w, p)[k] == Groups(w, p)[12];
      assert Partial(p, k) == Partial(p, 12) && Partial(p, k + 1) == Partial(p, 13);
    } else {
      DefaultSampleTypeRead(r, w, p);
      assert Groups(w, p)[k] == Groups(w, p)[13];
      assert Partial(p, k) == Partial(p, 13) && Partial(p, k + 1) == Partial(p, 14);
    }
  }

  lemma SampleTypesGroupRead(r: Readers, w: Writers, p: ProfileData)
    requires ReadsBack(r, w)
    ensures FoldFields(Groups(w, p)[0], Partial(p, 0), Step(r)) == Some(Partial(p, 1))
  {
    SampleTypesRead(r, w, p.sampleType, Partial(p, 0));
    assert Partial(p, 0).(sampleType := p.sampleType) == Partial(p, 1);
  }

  lemma SamplesGroupRead(r: Readers, w: Writers, p: ProfileData)
    requires ReadsBack(r, w)
    ensures FoldFields(Groups(w, p)[1], Partial(p, 1), Step(r)) == Some(Partial(p, 2))
  {
    SamplesRead(r, w, p.sample, Partial(p, 1));
    assert Partial(p, 1).(sample := p.sample) == Partial(p, 2);
  }

  lemma MappingsGroupRead(r: Readers, w: Writers, p: ProfileData)
    requires ReadsBack(r, w)
    ensures FoldFields(Groups(w, p)[2], Partial(p, 2), Step(r)) == Some(Partial(p, 3))
  {
    MappingsRead(r, w, p.mapping, Partial(p, 2));
    assert Partial(p, 2).(mapping := p.mapping) == Partial(p, 3);
  }

  lemma LocationsGroupRead(r: Readers, w: Writers, p: ProfileData)
    requires ReadsBack(r, w)
    ensures FoldFields(Groups(w, p)[3], Partial(p, 3), Step(r)) == Some(Partial(p, 4))
  {
    LocationsRead(r, w, p.location, Partial(p, 3));
    assert Partial(p, 3).(location := p.location) == Partial(p, 4);
  }

  lemma FunctionsGroupRead(r: Readers, w: Writers, p: ProfileData)
    requires ReadsBack(r, w)
    ensures FoldFields(Groups(w, p)[4], Partial(p, 4), Step(r)) == Some(Partial(p, 5))
  {
    FunctionsRead(r, w, p.functions, Partial(p, 4));
    assert Partial(p, 4).(functions := p.functions) == Partial(p, 5);
  }

  lemma StringsGroupRead(r: Readers, w: Writers, p: ProfileData)
    requires ReadsBack(r, w)
    ensures FoldFields(Groups(w, p)[5], Partial(p, 5), Step(r)) == Some(Partial(p, 6))
  {
    StringsRead(r, p.strings, Partial(p, 5));
    assert Partial(p, 5).(strings := p.strings) == Partial(p, 6);
  }

  lemma DropFramesRead(r: Readers, w: Writers, p: ProfileData)
    ensures FoldFields(Groups(w, p)[6], Partial(p, 6), Step(r)) == Some(Partial(p, 7))
  {
    var acc := Partial(p, 6);
    if p.dropFramesX != 0 {
      var f := VarintField(7, ToUint64(p.dropFramesX));
      assert Groups(w, p)[6] == [f];
      assert ToInt64(ToUint64(p.dropFramesX)) == p.dropFramesX;
      assert Step(r)(acc, f) == Some(acc.(dropFramesX := p.dropFramesX));
    } else {
      assert Groups(w, p)[6] == [];
    }
    assert acc.(dropFramesX := p.dropFramesX) == Partial(p, 7);
  }

  lemma KeepFramesRead(r: Readers, w: Writers, p: ProfileData)
    ensures FoldFields(Groups(w, p)[7], Partial(p, 7), Step(r)) == Some(Partial(p, 8))
  {
    var acc := Partial(p, 7);
    if p.keepFramesX != 0 {
      var f := VarintField(8, ToUint64(p.keepFramesX));
      assert Groups(w, p)[7] == [f];
      assert ToInt64(ToUint64(p.keepFramesX)) == p.keepFramesX;
      assert Step(r)(acc, f) == Some(acc.(keepFramesX := p.keepFramesX));
    } else {
      assert Groups(w, p)[7] == [];
    }
    assert acc.(keepFramesX := p.keepFramesX) == Partial(p, 8);
  }

  lemma TimeNanosRead(r: Readers, w: Writers, p: ProfileData)
    ensures FoldFields(Groups(w, p)[8], Partial(p, 8), Step(r)) == Some(Partial(p, 9))
  {
    var acc := Partial(p, 8);
    if p.timeNanos != 0 {
      var f := VarintField(9, ToUint64(p.timeNanos));
      assert Groups(w, p)[8] == [f];
      assert ToInt64(ToUint64(p.timeNanos)) == p.timeNanos;
      assert Step(r)(acc, f) == Some(acc.(timeNanos := p.timeNanos));
    } else {
      assert Groups(w, p)[8] == [];
    }
    assert acc.(timeNanos := p.timeNanos) == Partial(p, 9);
  }

  lemma DurationNanosRead(r: Readers, w: Writers, p: ProfileData)
    ensures FoldFields(Groups(w, p)[9], Partial(p, 9), Step(r)) == Some(Partial(p, 10))
  {
    var acc := Partial(p, 9);
    if p.durationNanos != 0 {
      var f := VarintField(10, ToUint64(p.durationNanos));
      assert Groups(w, p)[9] == [f];
      assert ToInt64(ToUint64(p.durationNanos)) == p.durationNanos;
      assert Step(r)(acc, f) == Some(acc.(durationNanos := p.durationNanos));
    } else {
      assert Groups(w, p)[9] == [];
    }
    assert acc.(durationNanos := p.durationNanos) == Partial(p, 10);
  }

  lemma PeriodTypeRead(r: Readers, w: Writers, p: ProfileData)
    requires ReadsBack(r, w)
    ensures FoldFields(Groups(w, p)[10], Partial(p, 10), Step(r)) == Some(Partial(p, 11))
  {
    var acc := Partial(p, 10);
    if p.periodType.typeX != 0 || p.periodType.unitX != 0 {
      assert Groups(w, p)[10] == [BytesField(11, w.valueType(p.periodType))];
    } else {
      assert Groups(w, p)[10] == [];
    }
    assert acc.(periodType := p.periodType) == Partial(p, 11);
  }

  lemma PeriodRead(r: Readers, w: Writers, p: ProfileData)
    ensures FoldFields(Groups(w, p)[11], Partial(p, 11), Step(r)) == Some(Partial(p, 12))
  {
    var acc := Partial(p, 11);
    if p.period != 0 {
      var f := VarintField(12, ToUint64(p.period));
      assert Groups(w, p)[11] == [f];
      assert ToInt64(ToUint64(p.period)) == p.period;
      assert Step(r)(acc, f) == Some(acc.(period := p.period));
    } else {
      assert Groups(w, p)[11] == [];
    }
    assert acc.(period := p.period) == Partial(p, 12);
  }

  lemma CommentsRead(r: Readers, w: Writers, p: ProfileData)
    ensures FoldFields(Groups(w, p)[12], Partial(p, 12), Step(r)) == Some(Partial(p, 13))
  {
    var acc := Partial(p, 12);
    if p.commentX != [] {
      var b := PackVarints(Unsigned(p.commentX));
      PackedRoundTrip(Unsigned(p.commentX));
      SignedUnsigned(p.commentX);
      assert Groups(w, p)[12] == [BytesField(13, b)];
      assert [] + p.commentX == p.commentX;
    } else {
      assert Groups(w, p)[12] == [];
    }
    assert acc.(commentX := p.commentX) == Partial(p, 13);
  }

  lemma DefaultSampleTypeRead(r: Readers, w: Writers, p: ProfileData)
    ensures FoldFields(Groups(w, p)[13], Partial(p, 13), Step(r)) == Some(Partial(p, 14))
  {
    var acc := Partial(p, 13);
    var f := VarintField(14, ToUint64(p.defaultSampleTypeX));
    assert Groups(w, p)[13] == [f];
    assert ToInt64(ToUint64(p.defaultSampleTypeX)) == p.defaultSampleTypeX;
    assert Step(r)(acc, f) == Some(acc.(defaultSampleTypeX := p.defaultSampleTypeX));
    assert acc.(defaultSampleTypeX := p.defaultSampleTypeX) == Partial(p, 14);
  }

  lemma {:induction false} GroupsRead(r: Readers, w: Writers, p: ProfileData, k: nat)
    requires ReadsBack(r, w) && k <= 14
    ensures FoldFields(Concat(Groups(w, p)[..k]), EmptyProfile, Step(r)) == Some(Partial(p, k))
  {
    if k == 0 {
      assert Partial(p, 0) == EmptyProfile;
    } else {
      GroupsRead(r, w, p, k - 1);
      ConcatPrefix(Groups(w, p), k - 1);
      GroupRead(r, w, p, k - 1);
      FoldThen(Concat(Groups(w, p)[..k - 1]), Groups(w, p)[k - 1], EmptyProfile, Partial(p, k - 1), Step(r));
    }
  }

  /** Decoding the bytes Profile::encode writes gives back every field of the profile. */
  lemma ProfileRoundTrip(p: ProfileData)
    ensures DecodeProfile(ProfileBytes(p)) == Some(p)
  {
    EntityReadersReadBack();
    GroupsRead(EntityReaders, EntityWriters, p, 14);
    assert Groups(EntityWriters, p)[..14] == Groups(EntityWriters, p);
    assert Partial(p, 14) == p;
    DecodeSerialized(ProfileFields(p), EmptyProfile, p, Step(EntityReaders));
  }
}
